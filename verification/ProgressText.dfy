/** How the console merges progress text: deltas appended to a section, and whole snapshots merged
    into what is there. */
module ProgressText {
  import opened Text

  // ----- JavaScript's string operations -----

  predicate IsSpace(c: char) {
    || '\t' <= c <= '\r' || c == ' ' || c == '\U{A0}' || c == '\U{1680}' || '\U{2000}' <= c <= '\U{200A}'
    || c == '\U{2028}' || c == '\U{2029}' || c == '\U{202F}' || c == '\U{205F}' || c == '\U{3000}' || c == '\U{FEFF}'
  }

  function TrimEnd(s: string): (t: string)
    ensures t <= s
  {
    if s != "" && IsSpace(s[|s| - 1]) then TrimEnd(s[..|s| - 1]) else s
  }

  function TrimStart(s: string): string {
    if s != "" && IsSpace(s[0]) then TrimStart(s[1..]) else s
  }

  function Trim(s: string): string {
    TrimEnd(TrimStart(s))
  }

  predicate At(s: string, i: int, t: string) {
    0 <= i && i + |t| <= |s| && s[i..i + |t|] == t
  }

  predicate Includes(s: string, t: string) {
    exists i :: 0 <= i <= |s| && At(s, i, t)
  }

  const BREAK := "\n\n"

  /** Splits at each blank line, from the left. */
  function Sections(s: string): (sections: seq<string>)
    ensures |sections| >= 1
  {
    if |s| < 2 then [s]
    else if s[..2] == BREAK then [""] + Sections(s[2..])
    else
      var rest := Sections(s[1..]);
      [[s[0]] + rest[0]] + rest[1..]
  }

  function Join(sections: seq<string>): string {
    if sections == [] then ""
    else if |sections| == 1 then sections[0]
    else sections[0] + BREAK + Join(sections[1..])
  }

  lemma {:induction false} JoinSections(s: string)
    ensures Join(Sections(s)) == s
  {
    if |s| >= 2 {
      if s[..2] == BREAK {
        JoinSections(s[2..]);
        assert s == "" + BREAK + s[2..];
        assert ([""] + Sections(s[2..]))[1..] == Sections(s[2..]);
      } else {
        JoinSections(s[1..]);
        var rest := Sections(s[1..]);
        assert s == [s[0]] + s[1..];
        assert Sections(s)[1..] == rest[1..];
        if |rest| > 1 {
          assert [s[0]] + (rest[0] + BREAK + Join(rest[1..])) == ([s[0]] + rest[0]) + BREAK + Join(rest[1..]);
        }
      }
    }
  }

  // ----- text inside text -----

  lemma IncludesTransitive(a: string, b: string, c: string)
    requires Includes(a, b) && Includes(b, c)
    ensures Includes(a, c)
  {
    var i :| 0 <= i <= |a| && At(a, i, b);
    var j :| 0 <= j <= |b| && At(b, j, c);
    forall k | 0 <= k < |c|
      ensures a[i + j + k] == c[k]
    {
      assert a[i + j + k] == a[i..i + |b|][j + k] == b[j + k] == b[j..j + |c|][k];
    }
    assert At(a, i + j, c);
  }

  lemma IncludesInside(before: string, inside: string, after: string)
    ensures Includes(before + inside + after, inside)
  {
    assert At(before + inside + after, |before|, inside);
  }

  lemma IncludesPrefix(s: string, t: string)
    requires t <= s
    ensures Includes(s, t)
  {
    assert At(s, 0, t);
  }

  lemma {:induction false} TrimStartIsSuffix(s: string) returns (i: nat)
    ensures i <= |s| && TrimStart(s) == s[i..]
  {
    if s != "" && IsSpace(s[0]) {
      var j := TrimStartIsSuffix(s[1..]);
      i := j + 1;
    } else {
      i := 0;
    }
  }

  lemma IncludesTrimmed(s: string)
    ensures Includes(s, Trim(s))
  {
    var i := TrimStartIsSuffix(s);
    var rest := s[i..];
    var n := |TrimEnd(rest)|;
    assert rest[..n] == TrimEnd(rest);
    assert s == s[..i] + rest[..n] + rest[n..];
    IncludesInside(s[..i], rest[..n], rest[n..]);
  }

  lemma {:induction false} TrimEndStops(s: string)
    ensures TrimEnd(s) != "" ==> !IsSpace(TrimEnd(s)[|TrimEnd(s)| - 1])
  {
    if s != "" && IsSpace(s[|s| - 1]) {
      TrimEndStops(s[..|s| - 1]);
    }
  }

  /** Text that ends visibly is not cut by trimming what it lies in. */
  lemma {:induction false} TrimEndKeeps(s: string, i: nat, t: string)
    requires At(s, i, t) && t != "" && !IsSpace(t[|t| - 1])
    ensures At(TrimEnd(s), i, t)
  {
    assert s[i + |t| - 1] == s[i..i + |t|][|t| - 1] == t[|t| - 1];
    if s != "" && IsSpace(s[|s| - 1]) {
      var init := s[..|s| - 1];
      assert init[i..i + |t|] == s[i..i + |t|];
      TrimEndKeeps(init, i, t);
    }
  }

  lemma {:induction false} SectionInJoin(sections: seq<string>, k: nat)
    requires k < |sections|
    ensures Includes(Join(sections), sections[k])
  {
    if |sections| == 1 {
      IncludesPrefix(sections[0], sections[0]);
    } else if k == 0 {
      IncludesInside("", sections[0], BREAK + Join(sections[1..]));
      assert "" + sections[0] + (BREAK + Join(sections[1..])) == Join(sections);
    } else {
      SectionInJoin(sections[1..], k - 1);
      IncludesInside(sections[0] + BREAK, Join(sections[1..]), "");
      assert sections[0] + BREAK + Join(sections[1..]) + "" == Join(sections);
      IncludesTransitive(Join(sections), Join(sections[1..]), sections[k]);
    }
  }

  lemma SectionInText(s: string, k: nat)
    requires k < |Sections(s)|
    ensures Includes(s, Sections(s)[k])
  {
    JoinSections(s);
    SectionInJoin(Sections(s), k);
  }

  // ----- snapshots -----

  function Existing(current: Option<string>): string {
    if current.None? then "" else TrimEnd(current.value)
  }

  /** The section may be the beginning of the snapshot. */
  predicate Begins(section: string, next: string) {
    section != "" && section <= next
  }

  function FirstBegun(sections: seq<string>, next: string): (k: nat)
    ensures k <= |sections|
    ensures k < |sections| ==> Begins(sections[k], next)
    ensures forall j :: 0 <= j < k ==> !Begins(sections[j], next)
  {
    if sections == [] || Begins(sections[0], next) then 0
    else
      var k := FirstBegun(sections[1..], next);
      assert forall j :: 0 < j < k + 1 ==> sections[j] == sections[1..][j - 1];
      k + 1
  }

  /** The snapshot in the place of the first section it goes on from, or in a section of its own. */
  function IntoSections(existing: string, next: string, snapshot: string): string {
    var sections := Sections(existing);
    var k := FirstBegun(sections, next);
    if k < |sections| then Join(sections[k := snapshot]) else existing + BREAK + snapshot
  }

  function MergedSnapshot(current: Option<string>, snapshot: string): string {
    var existing, next := Existing(current), Trim(snapshot);
    if existing == "" then snapshot
    else if next == "" || Includes(existing, next) then existing
    else if existing <= next then snapshot
    else IntoSections(existing, next, snapshot)
  }

  method MergePlainProgressSnapshot(current: Option<string>, snapshot: string) returns (merged: string)
    ensures merged == MergedSnapshot(current, snapshot)
  {
    var existing := if current.None? then "" else TrimEnd(current.value);
    var next := Trim(snapshot);
    if existing == "" {
      return snapshot;
    }
    if next == "" {
      return existing;
    }
    if existing == next || Includes(existing, next) {
      assert existing == next ==> At(existing, 0, next);
      return existing;
    }
    if existing <= next {
      return snapshot;
    }
    merged := MergeIntoSections(existing, next, snapshot);
  }

  method MergeIntoSections(existing: string, next: string, snapshot: string) returns (merged: string)
    requires !Includes(existing, next)
    ensures merged == IntoSections(existing, next, snapshot)
  {
    var sections := Sections(existing);
    for index := 0 to |sections|
      invariant sections == Sections(existing)
      invariant index <= FirstBegun(sections, next)
    {
      var section := sections[index];
      if section == "" {
        continue;
      }
      SectionHoldsNoMore(existing, index, next);
      if section == next || Includes(section, next) {
        assert false;
      }
      if section <= next {
        sections := sections[index := snapshot];
        return Join(sections);
      }
    }
    merged := existing + BREAK + snapshot;
  }

  /** A section includes only what the whole text includes: the code's test of a section for the
      snapshot never succeeds where it stands. */
  lemma SectionHoldsNoMore(existing: string, k: nat, next: string)
    requires k < |Sections(existing)|
    ensures !Includes(existing, next) ==> !Includes(Sections(existing)[k], next) && Sections(existing)[k] != next
  {
    var section := Sections(existing)[k];
    SectionInText(existing, k);
    IncludesPrefix(next, next);
    if Includes(section, next) {
      IncludesTransitive(existing, section, next);
    }
  }

  /** Merging never loses text: each section there was, and the trimmed snapshot, are in the result. */
  lemma MergeKeepsSections(current: Option<string>, snapshot: string, k: nat)
    requires k < |Sections(Existing(current))|
    ensures Includes(MergedSnapshot(current, snapshot), Sections(Existing(current))[k])
  {
    var existing, next := Existing(current), Trim(snapshot);
    var merged := MergedSnapshot(current, snapshot);
    var sections := Sections(existing);
    SectionInText(existing, k);
    if existing == "" {
      assert sections[k] == "";
      IncludesPrefix(merged, "");
    } else if next == "" || Includes(existing, next) {
    } else if existing <= next {
      IncludesTrimmed(snapshot);
      IncludesPrefix(next, existing);
      IncludesTransitive(snapshot, next, existing);
      IncludesTransitive(snapshot, existing, sections[k]);
    } else {
      var at := FirstBegun(sections, next);
      if at < |sections| {
        SectionInJoin(sections[at := snapshot], k);
        if k == at {
          IncludesTrimmed(snapshot);
          IncludesPrefix(next, sections[k]);
          IncludesTransitive(snapshot, next, sections[k]);
          IncludesTransitive(merged, snapshot, sections[k]);
        }
      } else {
        IncludesPrefix(merged, existing);
        IncludesTransitive(merged, existing, sections[k]);
      }
    }
  }

  lemma MergeKeepsSnapshot(current: Option<string>, snapshot: string)
    ensures Includes(MergedSnapshot(current, snapshot), Trim(snapshot))
  {
    var existing, next := Existing(current), Trim(snapshot);
    var merged := MergedSnapshot(current, snapshot);
    IncludesTrimmed(snapshot);
    if next == "" {
      IncludesPrefix(merged, "");
    } else if existing != "" && !Includes(existing, next) && !(existing <= next) {
      var sections := Sections(existing);
      var at := FirstBegun(sections, next);
      if at < |sections| {
        SectionInJoin(sections[at := snapshot], at);
      } else {
        IncludesInside(existing + BREAK, snapshot, "");
        assert existing + BREAK + snapshot + "" == merged;
      }
      IncludesTransitive(merged, snapshot, next);
    }
  }

  /** Merging the same snapshot again changes nothing but trailing white space. */
  lemma MergeAgainOnlyTrims(current: Option<string>, snapshot: string)
    requires Trim(snapshot) != ""
    ensures var merged := MergedSnapshot(current, snapshot);
            MergedSnapshot(Some(merged), snapshot) == TrimEnd(merged)
  {
    var merged, next := MergedSnapshot(current, snapshot), Trim(snapshot);
    MergeKeepsSnapshot(current, snapshot);
    TrimEndStops(TrimStart(snapshot));
    var i :| 0 <= i <= |merged| && At(merged, i, next);
    TrimEndKeeps(merged, i, next);
    assert Includes(TrimEnd(merged), next);
  }

  lemma {:induction false} JoinAround(sections: seq<string>, k: nat, next: string)
    returns (before: string, after: string)
    requires k < |sections|
    ensures Join(sections) == before + sections[k] + after && Join(sections[k := next]) == before + next + after
    ensures before == "" || (|before| >= 2 && before[|before| - 2..] == BREAK)
    ensures after == "" || BREAK <= after
  {
    if k == 0 {
      before := "";
      after := if |sections| == 1 then "" else BREAK + Join(sections[1..]);
      assert sections[0 := next][1..] == sections[1..];
      assert before + sections[0] + after == sections[0] + after && before + next + after == next + after;
    } else {
      var inner;
      inner, after := JoinAround(sections[1..], k - 1, next);
      before := sections[0] + BREAK + inner;
      assert sections[k := next][1..] == sections[1..][k - 1 := next];
      AroundInner(sections[0], inner, sections[k], after);
      AroundInner(sections[0], inner, next, after);
      if inner == "" {
        assert before[|sections[0]|..] == BREAK;
      } else {
        assert before[|before| - 2..] == inner[|inner| - 2..];
      }
    }
  }

  lemma AroundInner(first: string, inner: string, middle: string, after: string)
    ensures first + BREAK + (inner + middle + after) == first + BREAK + inner + middle + after
  {
  }

  /** A part of the text that stands for itself, and that the snapshot goes on from, has given its place to
      the snapshot; what is before and behind it is as it was. */
  ghost predicate TakesPlace(existing: string, snapshot: string, merged: string) {
    exists before: string, part: string, after: string ::
      && existing == before + part + after && merged == before + snapshot + after
      && Begins(part, Trim(snapshot))
      && (before == "" || (|before| >= 2 && before[|before| - 2..] == BREAK))
      && (after == "" || BREAK <= after)
  }

  /** A snapshot that says something new takes the place of what it goes on from, the whole text or a
      section, and comes at the end in a section of its own if there is none; one that says nothing new
      changes nothing. */
  lemma SnapshotTakesItsPlace(current: Option<string>, snapshot: string)
    ensures var existing, merged := Existing(current), MergedSnapshot(current, snapshot);
      if existing == "" then merged == snapshot
      else if Trim(snapshot) == "" || Includes(existing, Trim(snapshot)) then merged == existing
      else if existing <= Trim(snapshot) || exists section <- Sections(existing) :: Begins(section, Trim(snapshot)) then
        TakesPlace(existing, snapshot, merged)
      else merged == existing + BREAK + snapshot
  {
    var existing, next := Existing(current), Trim(snapshot);
    var merged, sections := MergedSnapshot(current, snapshot), Sections(existing);
    if existing != "" && next != "" && !Includes(existing, next) {
      if existing <= next {
        assert existing == "" + existing + "" && merged == "" + snapshot + "";
      } else {
        var k := FirstBegun(sections, next);
        if k < |sections| {
          JoinSections(existing);
          var before, after := JoinAround(sections, k, snapshot);
          assert TakesPlace(existing, snapshot, merged) by {
            assert existing == before + sections[k] + after && merged == before + snapshot + after;
          }
          assert sections[k] in sections;
        }
      }
    }
  }

  // ----- deltas in a section -----

  function Header(title: string): string {
    "**" + title + "**" + BREAK
  }

  /** Where the text occurs last; -1 when it does not occur before `end`. */
  function LastIndexOf(s: string, t: string, end: nat): (i: int)
    requires end <= |s| + 1
    ensures -1 <= i < end
    ensures i >= 0 ==> At(s, i, t)
    ensures forall j :: i < j < end ==> !At(s, j, t)
  {
    if end == 0 then -1 else if At(s, end - 1, t) then end - 1 else LastIndexOf(s, t, end - 1)
  }

  method AppendProgressDeltaToSection(current: Option<string>, title: string, delta: string) returns (appended: string)
    ensures appended == WithDelta(current, title, delta)
  {
    var header := Header(title);
    var existing := if current.None? then "" else TrimEnd(current.value);
    if existing == "" {
      return header + delta;
    }
    var headerStart := -1;
    if header <= existing {
      headerStart := 0;
    } else {
      var sectionStart := LastIndexOf(existing, BREAK + header, |existing| + 1);
      if sectionStart >= 0 {
        HeaderFollowsBreak(existing, sectionStart, header);
        headerStart := sectionStart + 2;
      }
    }
    if headerStart >= 0 && header <= existing[headerStart..] {
      var body := existing[headerStart + |header|..];
      if !Includes(body, BREAK + "**") {
        return existing + delta;
      }
    }
    appended := existing + BREAK + header + delta;
  }

  lemma HeaderFollowsBreak(s: string, i: nat, header: string)
    requires At(s, i, BREAK + header)
    ensures i + 2 <= |s| && header <= s[i + 2..]
  {
    assert s[i..i + 2 + |header|][2..] == header;
    assert s[i + 2..][..|header|] == header;
  }

  /** The section that the label's text would go on in; none when the text has no such section. */
  function SectionStart(existing: string, header: string): (start: int)
    ensures start >= 0 ==> start <= |existing| && header <= existing[start..]
  {
    if header <= existing then 0
    else
      var i := LastIndexOf(existing, BREAK + header, |existing| + 1);
      if i < 0 then -1
      else
        HeaderFollowsBreak(existing, i, header);
        i + 2
  }

  predicate GoesOn(existing: string, header: string) {
    var start := SectionStart(existing, header);
    start >= 0 && !Includes(existing[start + |header|..], BREAK + "**")
  }

  function WithDelta(current: Option<string>, title: string, delta: string): string {
    var existing, header := Existing(current), Header(title);
    if existing == "" then header + delta
    else if GoesOn(existing, header) then existing + delta
    else existing + BREAK + header + delta
  }

  /** A delta goes to the end of what is there, and the last section by then is its label's: nothing
      that looks like another section's header stands between the label's header and the delta. */
  lemma DeltaGoesUnderItsLabel(current: Option<string>, title: string, delta: string) returns (before: string,
      body: string)
    ensures WithDelta(current, title, delta) == before + Header(title) + body + delta
    ensures Existing(current) <= before + Header(title) + body
    ensures !Includes(body, BREAK + "**")
    ensures before == "" || (|before| >= 2 && before[|before| - 2..] == BREAK)
  {
    var existing, header := Existing(current), Header(title);
    body := "";
    if existing == "" {
      before := "";
    } else if GoesOn(existing, header) {
      var start := SectionStart(existing, header);
      before, body := existing[..start], existing[start + |header|..];
      assert existing == before + header + body;
      if !(header <= existing) {
        var i := start - 2;
        assert At(existing, i, BREAK + header);
        assert existing[i..i + 2 + |header|][..2] == BREAK;
      }
    } else {
      before := existing + BREAK;
    }
  }

  /** The label's header begins the text or stands behind a blank line somewhere in it, and no other
      section begins behind it. */
  predicate LastIsOf(existing: string, header: string) {
    if header <= existing then !Includes(existing[|header|..], BREAK + "**")
    else exists i :: 0 <= i <= |existing| && At(existing, i, BREAK + header)
                     && !Includes(existing[i + |BREAK + header|..], BREAK + "**")
  }

  lemma LaterIncludesLess(s: string, i: nat, j: nat, t: string)
    requires i <= j <= |s| && !Includes(s[i..], t)
    ensures !Includes(s[j..], t)
  {
    if Includes(s[j..], t) {
      assert s[i..] == s[i..j] + s[j..] + "";
      IncludesInside(s[i..j], s[j..], "");
      IncludesTransitive(s[i..], s[j..], t);
    }
  }

  /** A delta goes on where the text is exactly if the last section is its label's; otherwise it opens a
      section of its own. */
  lemma DeltaGoesOnIff(current: Option<string>, title: string, delta: string)
    ensures var existing, header := Existing(current), Header(title);
      WithDelta(current, title, delta)
         == if existing == "" then header + delta
            else if LastIsOf(existing, header) then existing + delta
            else existing + BREAK + header + delta
  {
    var existing, header := Existing(current), Header(title);
    if !(header <= existing) {
      var last := LastIndexOf(existing, BREAK + header, |existing| + 1);
      forall i | 0 <= i <= |existing| && At(existing, i, BREAK + header)
          && !Includes(existing[i + |BREAK + header|..], BREAK + "**")
        ensures last >= i && !Includes(existing[last + |BREAK + header|..], BREAK + "**")
      {
        LaterIncludesLess(existing, i + |BREAK + header|, last + |BREAK + header|, BREAK + "**");
      }
    }
  }

  // ----- plain deltas -----

  function AppendPlainProgressDelta(current: Option<string>, delta: string): string {
    Existing(current) + delta
  }

  function Appended(deltas: seq<string>): string {
    if deltas == [] then ""
    else AppendPlainProgressDelta(Some(Appended(deltas[..|deltas| - 1])), deltas[|deltas| - 1])
  }

  function Concatenated(deltas: seq<string>): string {
    if deltas == [] then "" else Concatenated(deltas[..|deltas| - 1]) + deltas[|deltas| - 1]
  }

  lemma {:induction false} AppendedIsNotLonger(deltas: seq<string>)
    ensures |Appended(deltas)| <= |Concatenated(deltas)|
  {
    if deltas != [] {
      AppendedIsNotLonger(deltas[..|deltas| - 1]);
    }
  }

  predicate EndsVisibly(s: string) {
    s == "" || !IsSpace(s[|s| - 1])
  }

  lemma LostSpaceIsLost(before: string, kept: string, delta: string)
    requires |kept| <= |before|
    ensures TrimEnd(kept) + delta == before + delta <==> kept == before && EndsVisibly(before)
  {
    var cut := TrimEnd(kept);
    assert |cut| <= |kept|;
    if cut + delta == before + delta {
      assert |cut| == |before|;
      assert cut == (cut + delta)[..|cut|] == (before + delta)[..|before|] == before;
    }
  }

  /** The stream of plain deltas comes out as it was sent exactly when no text that another delta
      follows ends in white space: white space there is dropped for good. */
  lemma {:induction false} PlainDeltasConservedIff(deltas: seq<string>)
    ensures Appended(deltas) == Concatenated(deltas)
       <==> forall k :: 0 <= k < |deltas| ==> EndsVisibly(Concatenated(deltas[..k]))
  {
    if deltas != [] {
      var n := |deltas| - 1;
      var init := deltas[..n];
      PlainDeltasConservedIff(init);
      AppendedIsNotLonger(init);
      assert forall k :: 0 <= k <= n ==> init[..k] == deltas[..k];
      LostSpaceIsLost(Concatenated(init), Appended(init), deltas[n]);
    }
  }
}
