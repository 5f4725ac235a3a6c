/**
 * Product lines that share one stock pool (`inventory/line_utils.py`), and names compared the way
 * the database's case-insensitive exact match compares them.
 */
module ProductLines {

  type LineId = nat

  // ---- names ------------------------------------------------------------------

  predicate IsSpace(c: char) {
    c == ' ' || '\t' <= c <= '\r' || '\U{1C}' <= c <= '\U{1F}'
  }

  function UpperChar(c: char): char {
    if 'a' <= c <= 'z' then c - 'a' + 'A' else c
  }

  function Upper(s: string): string {
    if |s| == 0 then [] else [UpperChar(s[0])] + Upper(s[1..])
  }

  lemma UpperAt(s: string)
    ensures |Upper(s)| == |s|
    ensures forall i :: 0 <= i < |s| ==> Upper(s)[i] == UpperChar(s[i])
  {
  }

  predicate Trimmed(s: string) {
    |s| > 0 ==> !IsSpace(s[0]) && !IsSpace(s[|s| - 1])
  }

  function StripLeft(s: string): string {
    if |s| > 0 && IsSpace(s[0]) then StripLeft(s[1..]) else s
  }

  function StripRight(s: string): string {
    if |s| > 0 && IsSpace(s[|s| - 1]) then StripRight(s[..|s| - 1]) else s
  }

  function Strip(s: string): string {
    StripRight(StripLeft(s))
  }

  lemma StripTrims(s: string)
    ensures Trimmed(Strip(s))
  {
    StripLeftStarts(s);
    StripRightEnds(StripLeft(s));
  }

  lemma StripLeftStarts(s: string)
    ensures |StripLeft(s)| > 0 ==> !IsSpace(StripLeft(s)[0])
  {
  }

  lemma StripRightEnds(s: string)
    ensures |StripRight(s)| <= |s| && StripRight(s) == s[..|StripRight(s)|]
    ensures |StripRight(s)| > 0 ==> !IsSpace(StripRight(s)[|StripRight(s)| - 1])
  {
  }

  lemma StripTrimmed(s: string)
    requires Trimmed(s)
    ensures Strip(s) == s
  {
  }

  predicate AllSpace(s: string) {
    forall i :: 0 <= i < |s| ==> IsSpace(s[i])
  }

  lemma {:induction false} StripLeftTakesBlanks(s: string) returns (blanks: string)
    ensures s == blanks + StripLeft(s) && AllSpace(blanks)
  {
    if |s| > 0 && IsSpace(s[0]) {
      var rest := StripLeftTakesBlanks(s[1..]);
      blanks := [s[0]] + rest;
      assert s == [s[0]] + s[1..];
    } else {
      blanks := "";
    }
  }

  lemma {:induction false} StripRightTakesBlanks(s: string) returns (blanks: string)
    ensures s == StripRight(s) + blanks && AllSpace(blanks)
  {
    if |s| > 0 && IsSpace(s[|s| - 1]) {
      var rest := StripRightTakesBlanks(s[..|s| - 1]);
      blanks := rest + [s[|s| - 1]];
      assert s == s[..|s| - 1] + [s[|s| - 1]];
    } else {
      blanks := "";
    }
  }

  /** Trimming takes away the blanks before and after, all of them and nothing else. */
  lemma StripTakesBlanks(s: string) returns (before: string, after: string)
    ensures s == before + Strip(s) + after && AllSpace(before) && AllSpace(after) && Trimmed(Strip(s))
  {
    before := StripLeftTakesBlanks(s);
    after := StripRightTakesBlanks(StripLeft(s));
    StripTrims(s);
  }

  /** The same letter, or the two cases of one. */
  predicate SameLetter(c: char, d: char) {
    c == d || ('a' <= c <= 'z' && d == c - 'a' + 'A') || ('a' <= d <= 'z' && c == d - 'a' + 'A')
  }

  /** Names match exactly when they are equal letter by letter but for case. */
  lemma SameNameIgnoresCase(a: string, b: string)
    ensures SameName(a, b) <==> |a| == |b| && forall i :: 0 <= i < |a| ==> SameLetter(a[i], b[i])
  {
    UpperAt(a);
    UpperAt(b);
    if SameName(a, b) {
      forall i | 0 <= i < |a| ensures SameLetter(a[i], b[i]) {
        assert Upper(a)[i] == Upper(b)[i];
      }
    }
    if |a| == |b| && forall i :: 0 <= i < |a| ==> SameLetter(a[i], b[i]) {
      assert forall i :: 0 <= i < |a| ==> Upper(a)[i] == Upper(b)[i];
    }
  }

  /** `name__iexact` */
  predicate SameName(a: string, b: string) {
    Upper(a) == Upper(b)
  }

  lemma SameNameTrimmed(a: string, b: string)
    requires SameName(a, b) && Trimmed(b)
    ensures Trimmed(a)
  {
    UpperAt(a);
    UpperAt(b);
    if |a| > 0 {
      assert Upper(a)[0] == Upper(b)[0] && Upper(a)[|a| - 1] == Upper(b)[|b| - 1];
    }
  }

  // ---- the catalogue ------------------------------------------------------------

  datatype ProductLine = ProductLine(pk: LineId, name: string, active: bool)

  ghost predicate InKeyOrder(lines: seq<ProductLine>) {
    forall i, j :: 0 <= i < j < |lines| ==> lines[i].pk < lines[j].pk
  }

  /** The product-line table in primary-key order. */
  type Lines = lines: seq<ProductLine> | InKeyOrder(lines) witness []

  predicate Matches(line: ProductLine, name: string) {
    line.active && SameName(line.name, name)
  }

  /** The active line of that name with the least primary key, if there is one. */
  function FirstMatch(lines: seq<ProductLine>, name: string, otherwise: ProductLine): ProductLine {
    if |lines| == 0 then otherwise
    else if Matches(lines[0], name) then lines[0]
    else FirstMatch(lines[1..], name, otherwise)
  }

  function Canonical(lines: Lines, line: ProductLine): ProductLine {
    var name := Strip(line.name);
    if name == "" then line else FirstMatch(lines, name, line)
  }

  ghost predicate LeastMatch(lines: seq<ProductLine>, name: string, c: ProductLine) {
    c in lines && Matches(c, name) && forall l :: l in lines && Matches(l, name) ==> c.pk <= l.pk
  }

  lemma {:induction false} FirstMatchMeaning(lines: Lines, name: string, otherwise: ProductLine)
    ensures var c := FirstMatch(lines, name, otherwise);
            if exists l :: l in lines && Matches(l, name) then LeastMatch(lines, name, c) else c == otherwise
  {
    if |lines| > 0 {
      var rest: Lines := lines[1..];
      assert lines == [lines[0]] + rest;
      if Matches(lines[0], name) {
        assert forall l :: l in rest ==> lines[0].pk < l.pk;
      } else {
        FirstMatchMeaning(rest, name, otherwise);
      }
    }
  }

  /** The pool's line is an active line of the trimmed name with the least key, or the line itself. */
  lemma CanonicalMeaning(lines: Lines, line: ProductLine)
    ensures var name := Strip(line.name); var c := Canonical(lines, line);
            if name != "" && exists l :: l in lines && Matches(l, name) then LeastMatch(lines, name, c) else c == line
    ensures forall l, name :: Matches(l, name) <==> l.active && SameName(l.name, name)
  {
    FirstMatchMeaning(lines, Strip(line.name), line);
  }

  /** Looking the pool up again from its own line finds the same pool. */
  lemma CanonicalIsIdempotent(lines: Lines, line: ProductLine)
    ensures Canonical(lines, Canonical(lines, line)) == Canonical(lines, line)
  {
    CanonicalMeaning(lines, line);
    var name, c := Strip(line.name), Canonical(lines, line);
    if c != line {
      StripTrims(line.name);
      SameNameTrimmed(c.name, name);
      StripTrimmed(c.name);
      FirstMatchSameName(lines, c.name, name, c, line);
    }
  }

  lemma {:induction false} FirstMatchSameName(lines: seq<ProductLine>, a: string, b: string, x: ProductLine, y: ProductLine)
    requires SameName(a, b)
    requires exists l :: l in lines && Matches(l, b)
    ensures FirstMatch(lines, a, x) == FirstMatch(lines, b, y)
  {
    assert forall l: ProductLine :: Matches(l, a) <==> Matches(l, b);
    if !Matches(lines[0], b) {
      assert lines == [lines[0]] + lines[1..];
      FirstMatchSameName(lines[1..], a, b, x, y);
    }
  }

  /**
   * When the trimmed names of two lines both name an active line, the two share one pool exactly
   * when those names are equal up to case.
   */
  lemma OnePoolPerName(lines: Lines, a: ProductLine, b: ProductLine)
    requires Strip(a.name) != "" && Strip(b.name) != ""
    requires exists l :: l in lines && Matches(l, Strip(a.name))
    requires exists l :: l in lines && Matches(l, Strip(b.name))
    ensures Canonical(lines, a) == Canonical(lines, b) <==> SameName(Strip(a.name), Strip(b.name))
  {
    CanonicalMeaning(lines, a);
    CanonicalMeaning(lines, b);
    if SameName(Strip(a.name), Strip(b.name)) {
      FirstMatchSameName(lines, Strip(a.name), Strip(b.name), a, b);
    }
  }

  // ---- lines by primary key -------------------------------------------------------

  /** The row behind a foreign key; a key with no row stands for a line that matches nothing. */
  function LineAt(lines: seq<ProductLine>, pk: LineId): ProductLine {
    if |lines| == 0 then ProductLine(pk, "", false)
    else if lines[0].pk == pk then lines[0]
    else LineAt(lines[1..], pk)
  }

  lemma LineAtHasTheKey(lines: seq<ProductLine>, pk: LineId)
    ensures LineAt(lines, pk).pk == pk
  {
  }

  lemma {:induction false} LineAtFinds(lines: Lines, line: ProductLine)
    requires line in lines
    ensures LineAt(lines, line.pk) == line
  {
    if lines[0] != line {
      assert lines == [lines[0]] + lines[1..];
      var k :| 0 <= k < |lines| && lines[k] == line;
      assert lines[0].pk < lines[k].pk;
      LineAtFinds(lines[1..], line);
    }
  }

  /** `_stock_line` on a foreign key. */
  function StockLine(lines: Lines, pk: LineId): LineId {
    Canonical(lines, LineAt(lines, pk)).pk
  }

  lemma StockLineIsIdempotent(lines: Lines, pk: LineId)
    ensures StockLine(lines, StockLine(lines, pk)) == StockLine(lines, pk)
  {
    var line := LineAt(lines, pk);
    var c := Canonical(lines, line);
    CanonicalMeaning(lines, line);
    CanonicalIsIdempotent(lines, line);
    LineAtHasTheKey(lines, pk);
    if c in lines {
      LineAtFinds(lines, c);
    }
  }

  /** The pool of a line in the table is the canonical line's; a key with no row is its own pool. */
  lemma StockLineMeaning(lines: Lines, line: ProductLine)
    ensures line in lines ==> StockLine(lines, line.pk) == Canonical(lines, line).pk
    ensures (forall l :: l in lines ==> l.pk != line.pk) ==> StockLine(lines, line.pk) == line.pk
  {
    if line in lines {
      LineAtFinds(lines, line);
    } else if forall l :: l in lines ==> l.pk != line.pk {
      LineAtMisses(lines, line.pk);
    }
  }

  lemma LineAtMisses(lines: seq<ProductLine>, pk: LineId)
    requires forall l :: l in lines ==> l.pk != pk
    ensures LineAt(lines, pk) == ProductLine(pk, "", false)
  {
  }

  lemma OneLinePerKey(lines: Lines, a: ProductLine, b: ProductLine)
    requires a in lines && b in lines && a.pk == b.pk
    ensures a == b
  {
    var i :| 0 <= i < |lines| && lines[i] == a;
    var j :| 0 <= j < |lines| && lines[j] == b;
  }

  /**
   * Stock moves by key: two lines of the table whose trimmed names name active lines share one pool
   * exactly when those names are equal up to case.
   */
  lemma SharedPoolIff(lines: Lines, a: ProductLine, b: ProductLine)
    requires a in lines && b in lines && Strip(a.name) != "" && Strip(b.name) != ""
    requires exists l :: l in lines && Matches(l, Strip(a.name))
    requires exists l :: l in lines && Matches(l, Strip(b.name))
    ensures StockLine(lines, a.pk) == StockLine(lines, b.pk) <==> SameName(Strip(a.name), Strip(b.name))
  {
    StockLineMeaning(lines, a);
    StockLineMeaning(lines, b);
    CanonicalMeaning(lines, a);
    CanonicalMeaning(lines, b);
    OnePoolPerName(lines, a, b);
    if StockLine(lines, a.pk) == StockLine(lines, b.pk) {
      OneLinePerKey(lines, Canonical(lines, a), Canonical(lines, b));
    }
  }
}
