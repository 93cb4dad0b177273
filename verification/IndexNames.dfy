/** Versioned index names: properties_v1, properties_v2 and so on. */
module IndexNames {
  import opened Outcomes
  import opened Decimal

  /** Where the digits at the end of a name begin. */
  function DigitsStart(name: string): (k: nat)
    ensures k <= |name| && AllDigits(name[k..])
    ensures k > 0 ==> !IsDigit(name[k - 1])
  {
    if name == "" || !IsDigit(name[|name| - 1]) then |name|
    else
      var k := DigitsStart(name[..|name| - 1]);
      assert name[k..] == name[..|name| - 1][k..] + [name[|name| - 1]];
      k
  }

  datatype Versioned = Versioned(base: string, digits: string)

  /** A name of the form base, _v, digits with a non-empty base. */
  function Parse(name: string): (r: Option<Versioned>)
    ensures r.Some? ==>
      r.value.base != "" && r.value.digits != "" && AllDigits(r.value.digits) &&
      name == r.value.base + "_v" + r.value.digits
  {
    var k := DigitsStart(name);
    if k < |name| && k >= 3 && name[k - 2..k] == "_v" then
      assert name == name[..k - 2] + name[k - 2..k] + name[k..];
      Some(Versioned(name[..k - 2], name[k..]))
    else None
  }

  function NextVersionName(name: string): string {
    match Parse(name)
    case Some(v) => v.base + "_v" + Numeral(ValueOf(v.digits) + 1)
    case None => name + "_v2"
  }

  function IndexVersionNumber(name: string): nat {
    match Parse(name)
    case Some(v) => ValueOf(v.digits)
    case None => 1
  }

  lemma {:induction false} DigitsStartAt(prefix: string, digits: string)
    requires AllDigits(digits) && (prefix == "" || !IsDigit(prefix[|prefix| - 1]))
    ensures DigitsStart(prefix + digits) == |prefix|
  {
    if digits == "" {
      assert prefix + digits == prefix;
    } else {
      var name, init := prefix + digits, digits[..|digits| - 1];
      assert name[..|name| - 1] == prefix + init;
      DigitsStartAt(prefix, init);
    }
  }

  /** A name that was built from a base and a version parses back into them. */
  lemma {:induction false} ParseOfVersioned(base: string, digits: string)
    requires base != "" && digits != "" && AllDigits(digits)
    ensures Parse(base + "_v" + digits) == Some(Versioned(base, digits))
  {
    var prefix := base + "_v";
    var name := prefix + digits;
    assert base + "_v" + digits == name;
    assert !IsDigit(prefix[|prefix| - 1]);
    DigitsStartAt(prefix, digits);
    assert name[|prefix| - 2..|prefix|] == "_v";
    assert name[..|prefix| - 2] == base && name[|prefix|..] == digits;
  }

  lemma {:induction false} NextOfVersioned(name: string)
    requires Parse(name).Some?
    ensures IndexVersionNumber(NextVersionName(name)) == IndexVersionNumber(name) + 1
  {
    var v := Parse(name).value;
    var n := ValueOf(v.digits) + 1;
    ParseOfVersioned(v.base, Numeral(n));
    ValueOfNumeral(n);
  }

  lemma {:induction false} NextOfPlain(name: string)
    requires Parse(name).None? && name != ""
    ensures IndexVersionNumber(NextVersionName(name)) == 2
  {
    ParseOfVersioned(name, "2");
    assert name + "_v" + "2" == name + "_v2";
    assert ValueOf("2") == 2 by { assert "2"[..0] == ""; }
  }

  lemma {:induction false} NextOfEmpty()
    ensures Parse("").None? && Parse("_v2").None? && NextVersionName("") == "_v2"
  {
    assert "_v" + "2" == "_v2";
    DigitsStartAt("_v", "2");
  }

  /** The next name is one version up and in particular another name, for every name an index can have; the empty name
      is the one exception. */
  lemma {:induction false} NextIsOneVersionUp(name: string)
    ensures IndexVersionNumber(NextVersionName(name)) == IndexVersionNumber(name) + 1 <==> name != ""
    ensures NextVersionName(name) != name
  {
    if name == "" {
      NextOfEmpty();
    } else if Parse(name).Some? {
      NextOfVersioned(name);
    } else {
      NextOfPlain(name);
    }
  }

  /** A name is plain when it is not a base, _v and digits. */
  ghost predicate Plain(name: string) {
    forall base, digits: string :: base != "" && digits != "" && AllDigits(digits) ==> name != base + "_v" + digits
  }

  lemma {:induction false} ParsedIsNotPlain(name: string)
    requires Parse(name).Some?
    ensures !Plain(name)
  {
    var v := Parse(name).value;
    assert name == v.base + "_v" + v.digits;
  }

  /** The next version of a versioned name keeps its base and counts on. */
  lemma {:induction false} NextKeepsTheBase(base: string, digits: string)
    requires base != "" && digits != "" && AllDigits(digits)
    ensures NextVersionName(base + "_v" + digits) == base + "_v" + Numeral(ValueOf(digits) + 1)
  {
    ParseOfVersioned(base, digits);
  }

  /** A plain name becomes the base of version 2. */
  lemma {:induction false} PlainBecomesTheBase(name: string)
    requires Plain(name)
    ensures NextVersionName(name) == name + "_v2"
  {
    if Parse(name).Some? {
      ParsedIsNotPlain(name);
    }
  }
}
