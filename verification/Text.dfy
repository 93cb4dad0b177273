/** The string operations the services rely on: stripping, joining and splitting. */
module Text {

  /** The characters Python's str.strip and str.split treat as white space. */
  predicate IsSpace(c: char) {
    var n := c as int;
    9 <= n <= 13 || 28 <= n <= 32 || n == 0x85 || n == 0xa0 || n == 0x1680 || 0x2000 <= n <= 0x200a ||
    n in {0x2028, 0x2029, 0x202f, 0x205f, 0x3000}
  }

  function Count(p: char -> bool, s: string): (n: nat)
    ensures n <= |s|
  {
    if s == "" then 0 else Count(p, s[..|s| - 1]) + if p(s[|s| - 1]) then 1 else 0
  }

  predicate Blank(s: string) {
    forall i :: 0 <= i < |s| ==> IsSpace(s[i])
  }

  function StripLeft(s: string): (r: string)
    ensures |r| <= |s| && r == s[|s| - |r|..] && Blank(s[..|s| - |r|])
    ensures r != [] ==> !IsSpace(r[0])
  {
    if s != [] && IsSpace(s[0]) then
      var r := StripLeft(s[1..]);
      assert s[..|s| - |r|] == [s[0]] + s[1..][..|s| - 1 - |r|];
      r
    else s
  }

  function StripRight(s: string): (r: string)
    ensures |r| <= |s| && r == s[..|r|] && Blank(s[|r|..])
    ensures r != [] ==> !IsSpace(r[|r| - 1])
  {
    if s != [] && IsSpace(s[|s| - 1]) then
      var r := StripRight(s[..|s| - 1]);
      assert s[|r|..] == s[..|s| - 1][|r|..] + [s[|s| - 1]];
      r
    else s
  }

  function Strip(s: string): string {
    StripRight(StripLeft(s))
  }

  /** Neither end is white space. */
  predicate Trimmed(s: string) {
    s != [] ==> !IsSpace(s[0]) && !IsSpace(s[|s| - 1])
  }

  lemma {:induction false} StripTrims(s: string)
    ensures Trimmed(Strip(s))
    ensures Strip(s) == [] <==> Blank(s)
  {
    var left := StripLeft(s);
    var r := StripRight(left);
    if r == [] {
      assert Blank(left);
      assert s == s[..|s| - |left|] + left;
    } else {
      assert s[|s| - |left|] == left[0] == r[0];
    }
  }

  lemma {:induction false} StripOfTrimmed(s: string)
    requires Trimmed(s)
    ensures Strip(s) == s
  {
    assert StripLeft(s) == s;
  }

  /** The parts that are more than white space. */
  function NonBlank(parts: seq<string>): (r: seq<string>)
    ensures forall p :: p in r <==> p in parts && !Blank(p)
  {
    if parts == [] then [] else (if Blank(parts[0]) then [] else [parts[0]]) + NonBlank(parts[1..])
  }

  /** A comprehension over a list. */
  function Mapped<T, X>(f: T -> X, items: seq<T>): (r: seq<X>)
    ensures |r| == |items| && forall i :: 0 <= i < |r| ==> r[i] == f(items[i])
  {
    seq(|items|, i requires 0 <= i < |items| => f(items[i]))
  }

  lemma {:induction false} MappedMore<T, X>(f: T -> X, item: T, rest: seq<T>)
    ensures Mapped(f, [item] + rest) == [f(item)] + Mapped(f, rest)
  {
  }

  /** str.removeprefix */
  function RemovePrefix(s: string, prefix: string): string {
    if prefix <= s then s[|prefix|..] else s
  }

  function Join(sep: string, parts: seq<string>): string {
    if parts == [] then ""
    else if |parts| == 1 then parts[0]
    else parts[0] + sep + Join(sep, parts[1..])
  }

  lemma {:induction false} JoinMore(sep: string, first: string, rest: seq<string>)
    ensures Join(sep, [first] + rest) == if rest == [] then first else first + sep + Join(sep, rest)
  {
    assert ([first] + rest)[1..] == rest;
  }

  lemma {:induction false} JoinLast(sep: string, parts: seq<string>, last: string)
    ensures Join(sep, parts + [last]) == if parts == [] then last else Join(sep, parts) + sep + last
  {
    if |parts| > 1 {
      JoinLast(sep, parts[1..], last);
      assert (parts + [last])[1..] == parts[1..] + [last];
    } else if |parts| == 1 {
      assert (parts + [last])[1..] == [last];
    } else {
      assert parts + [last] == [last];
    }
  }

  /** "".join, one part more. */
  lemma {:induction false} ConcatLast(parts: seq<string>, last: string)
    ensures Join("", parts + [last]) == Join("", parts) + last
  {
    JoinLast("", parts, last);
    assert Join("", parts) + "" == Join("", parts);
  }

  /** str.split with a separator character: always at least one part, and parts may be empty. */
  function SplitOn(s: string, sep: char): (parts: seq<string>)
    ensures parts != []
  {
    if s == [] then [""]
    else
      var rest := SplitOn(s[1..], sep);
      if s[0] == sep then [""] + rest else [[s[0]] + rest[0]] + rest[1..]
  }

  lemma {:induction false} JoinLongerHead(sep: string, c: char, parts: seq<string>)
    requires parts != []
    ensures Join(sep, [[c] + parts[0]] + parts[1..]) == [c] + Join(sep, parts)
  {
    JoinMore(sep, [c] + parts[0], parts[1..]);
    JoinMore(sep, parts[0], parts[1..]);
    assert [parts[0]] + parts[1..] == parts;
    var tail := sep + Join(sep, parts[1..]);
    assert [c] + parts[0] + tail == [c] + (parts[0] + tail);
    assert [c] + parts[0] + sep + Join(sep, parts[1..]) == [c] + parts[0] + tail;
    assert parts[0] + sep + Join(sep, parts[1..]) == parts[0] + tail;
  }

  /** Splitting and joining on the same character are inverse. */
  lemma {:induction false} JoinOfSplit(s: string, sep: char)
    ensures Join([sep], SplitOn(s, sep)) == s
  {
    if s != [] {
      JoinOfSplit(s[1..], sep);
      var rest := SplitOn(s[1..], sep);
      if s[0] == sep {
        JoinMore([sep], "", rest);
        assert "" + [sep] + s[1..] == s;
      } else {
        JoinLongerHead([sep], s[0], rest);
        assert [s[0]] + s[1..] == s;
      }
    }
  }
}
