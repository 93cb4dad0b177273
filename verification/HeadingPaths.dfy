/** Under which headings a section of a document stands. */
module HeadingPaths {
  import opened Lines
  import opened Chunking

  /** The path behind a heading: cut at its level, and the title. */
  lemma {:induction false} HeadingPath(before: seq<Line>, level: nat, title: string, stack: seq<string>)
    requires level > 0
    ensures Pushed(StackAfter(before, stack), level, title, StackAfter(before + [Heading(level, title)], stack))
  {
    PathOneMore(before, Heading(level, title), stack);
    OneLine(Heading(level, title), StackAfter(before, stack));
  }

  ghost predicate OnlyBody(lines: seq<Line>) {
    forall line :: line in lines ==> line.Body?
  }

  /** A section goes on through body lines up to the next heading. */
  lemma {:induction false} BodySection(body: seq<Line>, after: seq<Line>, path: seq<string>, units: seq<string>)
    requires OnlyBody(body) && (after == [] || after[0].Heading?)
    ensures SectionsFrom(body + after, path, units) ==
      Flush(path, units + UnitsOf(body)) + SectionsFrom(after, path, [])
  {
    if body == [] {
      assert body + after == after && units + [] == units;
      if after == [] {
        assert Flush(path, units) + [] == Flush(path, units);
      } else {
        assert Flush(path, []) == [];
      }
    } else {
      assert body[0] in body;
      assert (body + after)[0] == body[0] && (body + after)[1..] == body[1..] + after;
      BodySection(body[1..], after, path, units + body[0].units);
      assert units + body[0].units + UnitsOf(body[1..]) == units + (body[0].units + UnitsOf(body[1..]));
    }
  }

  lemma {:induction false} Regrouped<T>(a: seq<T>, b: seq<T>, c: seq<T>, d: seq<T>)
    ensures a + b + c + d == a + b + (c + d)
  {
  }

  /** The text behind a heading, up to the next one, is a section with the path of `HeadingPath`. */
  lemma {:induction false} HeadedSection(before: seq<Line>, level: nat, title: string, body: seq<Line>,
                                         after: seq<Line>, stack: seq<string>, units: seq<string>)
    requires level > 0 && OnlyBody(body) && UnitsOf(body) != [] && (after == [] || after[0].Heading?)
    ensures var path := StackAfter(before + [Heading(level, title)], stack);
      Pushed(StackAfter(before, stack), level, title, path) &&
      SectionsFrom(before + [Heading(level, title)] + body + after, stack, units) ==
      SectionsFrom(before, stack, units) + ([Section(path, UnitsOf(body))] + SectionsFrom(after, path, []))
  {
    var heading := Heading(level, title);
    var path := StackAfter(before + [heading], stack);
    HeadingPath(before, level, title, stack);
    HeadingIsBoundary(before, level, title, body + after, stack, units);
    Regrouped(before, [heading], body, after);
    BodySection(body, after, path, []);
    assert [] + UnitsOf(body) == UnitsOf(body);
  }

  // ---------------------------------------------------------------- closed sections

  ghost predicate DeeperThan(lines: seq<Line>, depth: nat) {
    forall line :: line in lines && line.Heading? ==> line.level > depth
  }

  /** Where the title of a heading lands. */
  function Depth(stack: seq<string>, level: nat): nat {
    if level <= |stack| then level else |stack| + 1
  }

  lemma {:induction false} DeeperKeeps(lines: seq<Line>, stack: seq<string>, depth: nat)
    requires depth <= |stack| && DeeperThan(lines, depth)
    ensures depth <= |StackAfter(lines, stack)| && StackAfter(lines, stack)[..depth] == stack[..depth]
  {
    if lines != [] {
      var line := lines[0];
      assert line in lines;
      var next := if line.Heading? then PushHeading(stack, line.level, line.title) else stack;
      assert next[..depth] == stack[..depth] by {
        if line.Heading? {
          assert next[..depth] == next[..|next| - 1][..depth];
        }
      }
      DeeperKeeps(lines[1..], next, depth);
    }
  }

  lemma {:induction false} PathAppend(a: seq<Line>, b: seq<Line>, stack: seq<string>)
    ensures StackAfter(a + b, stack) == StackAfter(b, StackAfter(a, stack))
  {
    if a == [] {
      assert a + b == b;
    } else {
      assert (a + b)[0] == a[0] && (a + b)[1..] == a[1..] + b;
      PathAppend(a[1..], b, if a[0].Heading? then PushHeading(stack, a[0].level, a[0].title) else stack);
    }
  }

  /** A heading cuts alike whatever agrees up to its level. */
  lemma {:induction false} SameCut(a: seq<string>, b: seq<string>, level: nat, title: string)
    requires 0 < level && level - 1 <= |a| && level - 1 <= |b| && a[..level - 1] == b[..level - 1]
    ensures StackAfter([Heading(level, title)], a) == StackAfter([Heading(level, title)], b)
  {
    var line := Heading(level, title);
    OneLine(line, a);
    OneLine(line, b);
    var p, q := StackAfter([line], a), StackAfter([line], b);
    assert p[..|p| - 1] == a[..level - 1] && q[..|q| - 1] == b[..level - 1];
    assert p == p[..|p| - 1] + [title] && q == q[..|q| - 1] + [title];
  }

  /** Behind a heading of its level or above, a section that took `depth` places has left no trace in the paths. */
  lemma {:induction false} ClosedLeavesNoTrace(before: seq<Line>, closed: Line, between: seq<Line>, level: nat,
                                               title: string, stack: seq<string>)
    requires closed.Heading? && closed.level > 0 && 0 < level <= Depth(StackAfter(before, stack), closed.level)
    requires DeeperThan(between, Depth(StackAfter(before, stack), closed.level))
    ensures StackAfter(before + [closed] + between + [Heading(level, title)], stack)
         == StackAfter(before + [Heading(level, title)], stack)
  {
    var bare, inner := StackAfter(before, stack), StackAfter(before + [closed], stack);
    var depth := Depth(bare, closed.level);
    HeadingPath(before, closed.level, closed.title, stack);
    PathAppend(before + [closed], between, stack);
    DeeperKeeps(between, inner, depth);
    var inside := StackAfter(before + [closed] + between, stack);
    assert inside[..level - 1] == inner[..depth][..level - 1] == inner[..|inner| - 1][..level - 1];
    assert bare[..level - 1] == bare[..|inner| - 1][..level - 1];
    SameCut(inside, bare, level, title);
    PathOneMore(before + [closed] + between, Heading(level, title), stack);
    PathOneMore(before, Heading(level, title), stack);
  }

  /** The sections behind it are those of the document without the closed section. */
  lemma {:induction false} ClosedSectionIsGone(before: seq<Line>, closed: Line, between: seq<Line>, level: nat,
                                               title: string, after: seq<Line>, stack: seq<string>,
                                               units: seq<string>) returns (behind: seq<Section>)
    requires closed.Heading? && closed.level > 0 && 0 < level <= Depth(StackAfter(before, stack), closed.level)
    requires DeeperThan(between, Depth(StackAfter(before, stack), closed.level))
    ensures SectionsFrom(before + [closed] + between + [Heading(level, title)] + after, stack, units)
         == SectionsFrom(before + [closed] + between, stack, units) + behind
    ensures SectionsFrom(before + [Heading(level, title)] + after, stack, units)
         == SectionsFrom(before, stack, units) + behind
  {
    behind := SectionsFrom(after, StackAfter(before + [Heading(level, title)], stack), []);
    ClosedLeavesNoTrace(before, closed, between, level, title, stack);
    HeadingIsBoundary(before + [closed] + between, level, title, after, stack, units);
    HeadingIsBoundary(before, level, title, after, stack, units);
  }

  /** Below its depth it stays open, even where its own level is deeper: a skipped level is not closed by a heading that
      fills it in. */
  lemma {:induction false} OpenSectionStays(before: seq<Line>, opening: Line, level: nat, title: string,
                                            stack: seq<string>)
    requires opening.Heading? && opening.level > 0 && level > Depth(StackAfter(before, stack), opening.level)
    ensures StackAfter(before + [opening] + [Heading(level, title)], stack)
         == StackAfter(before + [opening], stack) + [title]
  {
    var inner := StackAfter(before + [opening], stack);
    HeadingPath(before, opening.level, opening.title, stack);
    HeadingPath(before + [opening], level, title, stack);
    var path := StackAfter(before + [opening] + [Heading(level, title)], stack);
    assert path == path[..|path| - 1] + [title] && inner[..|inner|] == inner;
  }

  /** So behind "### A" a section "## B" stands below A. */
  lemma {:induction false} SkippedLevelStaysOpen()
    ensures StackAfter([Heading(3, "A")] + [Heading(2, "B")], []) == ["A", "B"]
  {
    OpenSectionStays([], Heading(3, "A"), 2, "B", []);
    assert [] + [Heading(3, "A")] == [Heading(3, "A")];
    HeadingPath([], 3, "A", []);
  }
}
