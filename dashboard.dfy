/**
  The dashboard's search row (components/Dashboard.tsx): four search boxes whose conjunction
  filters the table of lines.
*/
module Dashboard {
  import opened Types
  import opened Seqs

  /** The four search boxes: name, status select, sub-route count, minibus count. */
  datatype Search = Search(name: string, status: string, subRouteCount: string, minibusCount: string)

  /** All four boxes empty, as the dashboard starts. */
  const EMPTY_SEARCH: Search := Search("", "", "", "")

  /** String.prototype.includes: sub occurs in s at some position. */
  predicate Contains(s: string, sub: string)
    ensures sub == [] ==> Contains(s, sub)
    ensures Contains(s, sub) ==> |sub| <= |s|
  {
    sub <= s || (s != [] && Contains(s[1..], sub))
  }

  /** sub occurs in s starting at index i. */
  predicate OccursAt(s: string, sub: string, i: nat)
  {
    i + |sub| <= |s| && s[i..i + |sub|] == sub
  }

  /** Contains is the usual substring test: sub occurs in s at some index. */
  lemma {:induction false} ContainsMeansOccurs(s: string, sub: string)
    ensures Contains(s, sub) <==> exists i: nat :: OccursAt(s, sub, i)
  {
    if sub <= s {
      assert OccursAt(s, sub, 0);
    } else if s != [] {
      ContainsMeansOccurs(s[1..], sub);
      if Contains(s[1..], sub) {
        var i: nat :| OccursAt(s[1..], sub, i);
        assert s[i + 1..i + 1 + |sub|] == s[1..][i..i + |sub|];
        assert OccursAt(s, sub, i + 1);
      }
      if exists i: nat :: OccursAt(s, sub, i) {
        var i: nat :| OccursAt(s, sub, i);
        assert s[1..][i - 1..i - 1 + |sub|] == s[i..i + |sub|];
        assert OccursAt(s[1..], sub, i - 1);
      }
    }
  }

  function Digit(d: nat): (c: char)
    requires d < 10
  {
    "0123456789"[d]
  }

  /** Number.prototype.toString for the non-negative integers the counters hold. */
  function Decimal(n: nat): (r: string)
    ensures |r| >= 1
    ensures forall i :: 0 <= i < |r| ==> '0' <= r[i] <= '9'
    ensures |r| > 1 ==> r[0] != '0'
  {
    if n < 10 then [Digit(n)] else Decimal(n / 10) + [Digit(n % 10)]
  }

  /** The value a string of decimal digits denotes. */
  function DigitsValue(s: string): nat
    requires forall i :: 0 <= i < |s| ==> '0' <= s[i] <= '9'
  {
    if s == [] then 0 else 10 * DigitsValue(s[..|s| - 1]) + (s[|s| - 1] as int - '0' as int)
  }

  /** Decimal loses nothing: reading its digits back gives the number. */
  lemma {:induction false} DecimalRoundTrip(n: nat)
    ensures DigitsValue(Decimal(n)) == n
  {
    if n >= 10 {
      DecimalRoundTrip(n / 10);
      var r := Decimal(n);
      assert r[..|r| - 1] == Decimal(n / 10);
    }
  }

  /** The filter condition of one line (lower stands for toLowerCase). */
  predicate Matches(line: Line, q: Search, lower: string -> string)
    ensures q == EMPTY_SEARCH && lower("") == "" ==> Matches(line, q, lower)
  {
    && Contains(lower(line.name), lower(q.name))
    && (q.status == "" || StatusLabel(line.status) == q.status)
    && Contains(Decimal(|line.subRoutes|), q.subRouteCount)
    && Contains(Decimal(line.minibusCount), q.minibusCount)
  }

  function Matching(q: Search, lower: string -> string): Line -> bool
  {
    (l: Line) => Matches(l, q, lower)
  }

  /**
    filteredLines: the lines, in table order, that meet all four conditions: sound (every row
    shown matches), complete (every matching line is shown) and order-preserving.
  */
  function FilteredLines(lines: seq<Line>, q: Search, lower: string -> string): (r: seq<Line>)
    ensures IsSubsequence(r, lines)
    ensures forall l :: multiset(r)[l] == if Matches(l, q, lower) then multiset(lines)[l] else 0
    ensures forall i :: 0 <= i < |r| ==>
      (&& r[i] in lines
       && Contains(lower(r[i].name), lower(q.name))
       && (q.status == "" || StatusLabel(r[i].status) == q.status)
       && Contains(Decimal(|r[i].subRoutes|), q.subRouteCount)
       && Contains(Decimal(r[i].minibusCount), q.minibusCount))
    ensures forall i :: 0 <= i < |lines| ==>
      (&& Contains(lower(lines[i].name), lower(q.name))
       && (q.status == "" || StatusLabel(lines[i].status) == q.status)
       && Contains(Decimal(|lines[i].subRoutes|), q.subRouteCount)
       && Contains(Decimal(lines[i].minibusCount), q.minibusCount))
      ==> lines[i] in r
  {
    FilterIsSubsequence(lines, Matching(q, lower));
    FilterCounts(lines, Matching(q, lower));
    Filter(lines, Matching(q, lower))
  }

  /** With every box empty the table shows every line. */
  lemma EmptySearchShowsAll(lines: seq<Line>, lower: string -> string)
    requires lower("") == ""
    ensures FilteredLines(lines, EMPTY_SEARCH, lower) == lines
  {
    forall i | 0 <= i < |lines|
      ensures Matching(EMPTY_SEARCH, lower)(lines[i])
    {
      assert "" <= lower(lines[i].name);
    }
    FilterKeepsAll(lines, Matching(EMPTY_SEARCH, lower));
  }

  /** Choosing a status in the select shows exactly the lines with that status. */
  lemma StatusSearchIsExact(lines: seq<Line>, status: LineStatus, lower: string -> string)
    requires lower("") == ""
    ensures var r := FilteredLines(lines, Search("", StatusLabel(status), "", ""), lower);
      && (forall i :: 0 <= i < |r| ==> r[i].status == status)
      && (forall i :: 0 <= i < |lines| && lines[i].status == status ==> lines[i] in r)
  {
    var r := FilteredLines(lines, Search("", StatusLabel(status), "", ""), lower);
    forall i | 0 <= i < |r|
      ensures r[i].status == status
    {
      assert StatusLabel(r[i].status) == StatusLabel(status);
      assert "AKTİF"[0] != "PASİF"[0];
    }
    forall i | 0 <= i < |lines| && lines[i].status == status
      ensures lines[i] in r
    {
      assert "" <= lower(lines[i].name);
    }
  }
}
