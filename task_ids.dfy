/**
 * The task-ID scheme of the task views: a year letter ('A' for the year of the
 * oldest task, 'B' for the next, ...), the month number without padding, a dash and
 * a sequence number padded to three digits, e.g. "A7-012".
 */
module TaskIds {
  import opened Basics
  import opened Text

  /**
   * The clock readings `chr` accepts here: the year letter's code point is not
   * negative, and stays below the surrogate range. A clock set before the oldest task's
   * year is allowed, and gives a letter before 'A'.
   */
  predicate ClockOk(nowYear: int, firstYear: Option<int>) {
    firstYear.Some? ==> -65 <= nowYear - firstYear.value < 0xD800 - 65
  }

  /** The year letter followed by the unpadded month: "A1", ..., "A12", "B1", ... */
  function MonthPrefix(nowYear: int, nowMonth: nat, firstYear: Option<int>): (p: string)
    requires ClockOk(nowYear, firstYear)
    ensures |p| >= 2 && p[1..] == NatToString(nowMonth)
    ensures firstYear.None? ==> p[0] == 'A'
    ensures firstYear.Some? ==> p[0] as int == 'A' as int + nowYear - firstYear.value
  {
    var letter := if firstYear.Some? then (65 + nowYear - firstYear.value) as char else 'A';
    [letter] + NatToString(nowMonth)
  }

  /** The piece after the last dash (`title.split('-')[-1]`). */
  function LastPiece(s: string): string {
    var parts := Split(s, '-');
    parts[|parts| - 1]
  }

  /** The titles that start with `prefix`, in table order (`filter(title__startswith=prefix)`). */
  function WithPrefix(titles: seq<string>, prefix: string): (r: seq<string>)
    ensures forall t :: t in r <==> t in titles && StartsWith(t, prefix)
  {
    if titles == [] then []
    else (if StartsWith(titles[0], prefix) then [titles[0]] else []) + WithPrefix(titles[1..], prefix)
  }

  /**
   * `generate_task_id` as written: take the lexicographically greatest title that starts
   * with the month prefix, add one to the number after its last dash, and pad it to
   * three digits; `None` where `int()` raises on a non-numeric piece.
   */
  function GenerateTaskId(nowYear: int, nowMonth: nat, firstYear: Option<int>, titles: seq<string>): (r: Option<string>)
    requires ClockOk(nowYear, firstYear)
  {
    var prefix := MonthPrefix(nowYear, nowMonth, firstYear);
    var matching := WithPrefix(titles, prefix);
    if matching == [] then Some(prefix + "-" + ZeroPad(1, 3))
    else
      match ParseNat(LastPiece(LexMax(matching)))
      case None => None
      case Some(last) => Some(prefix + "-" + ZeroPad(last + 1, 3))
  }

  /**
   * Every ID it produces is the month prefix, a dash and at least three digits, and it
   * fails only when the greatest matching title does not end in a number.
   */
  lemma GenerateTaskIdShape(nowYear: int, nowMonth: nat, firstYear: Option<int>, titles: seq<string>)
    requires ClockOk(nowYear, firstYear)
    ensures var r := GenerateTaskId(nowYear, nowMonth, firstYear, titles);
      var prefix := MonthPrefix(nowYear, nowMonth, firstYear);
      var matching := WithPrefix(titles, prefix);
      && (r.Some? ==> StartsWith(r.value, prefix + "-") && |r.value| >= |prefix| + 4
                      && AllDigits(r.value[|prefix| + 1..]))
      && (r.None? <==> matching != [] && ParseNat(LastPiece(LexMax(matching))).None?)
  {
    var r := GenerateTaskId(nowYear, nowMonth, firstYear, titles);
    var prefix := MonthPrefix(nowYear, nowMonth, firstYear);
    var matching := WithPrefix(titles, prefix);
    if r.Some? {
      var n := if matching == [] then 1 else ParseNat(LastPiece(LexMax(matching))).value + 1;
      assert r.value == prefix + "-" + ZeroPad(n, 3);
      assert r.value[..|prefix| + 1] == prefix + "-";
      assert r.value[|prefix| + 1..] == ZeroPad(n, 3);
    }
  }

  /** With no tasks at all the first ID of the month is "A<month>-001". */
  lemma FirstIdOfEmptyTable(nowYear: int, nowMonth: nat)
    ensures GenerateTaskId(nowYear, nowMonth, None, []) == Some(['A'] + NatToString(nowMonth) + "-001")
  {
    assert ZeroPad(1, 3) == "001" by {
      assert NatToString(1) == "1";
      assert Zeros(2) == "00";
    }
    assert ['A'] + NatToString(nowMonth) + "-" + "001" == ['A'] + NatToString(nowMonth) + "-001";
  }

  /** The generator once it has found the greatest matching title `last` and its number `n`. */
  lemma GenerateFromLast(nowYear: int, nowMonth: nat, firstYear: Option<int>, titles: seq<string>,
                         last: string, n: nat)
    requires ClockOk(nowYear, firstYear)
    requires var matching := WithPrefix(titles, MonthPrefix(nowYear, nowMonth, firstYear));
      matching != [] && LexMax(matching) == last && ParseNat(LastPiece(last)) == Some(n)
    ensures GenerateTaskId(nowYear, nowMonth, firstYear, titles)
      == Some(MonthPrefix(nowYear, nowMonth, firstYear) + "-" + ZeroPad(n + 1, 3))
  {
  }

  lemma PrefixA1()
    ensures MonthPrefix(2025, 1, Some(2025)) == "A1"
  {
    assert NatToString(1) == "1";
  }

  /** "x-" + digits splits at its one dash. */
  lemma SplitAtDash(a: string, b: string)
    requires '-' !in a && '-' !in b
    ensures LastPiece(a + "-" + b) == b
  {
    SplitNoSep(b, '-');
    SplitJoin(a, '-', b);
  }

  lemma PadSix()
    ensures ZeroPad(6, 3) == "006"
  {
    assert NatToString(6) == "6";
    assert Zeros(2) == "00";
  }

  lemma PadThousand()
    ensures ZeroPad(1000, 3) == "1000"
  {
    assert NatToString(10) == "10";
    assert NatToString(100) == "100";
    assert NatToString(1000) == "1000";
  }

  lemma ParseFive()
    ensures ParseNat("005") == Some(5)
  {
    var s := "005";
    assert s[..2] == "00" && s[..2][..1] == "0" && s[..2][..1][..0] == [];
    assert AllDigits(s);
    assert DigitsValue("0") == 0;
    assert DigitsValue("00") == 0;
    assert DigitsValue(s) == 5;
  }

  lemma ParseNineNineNine()
    ensures ParseNat("999") == Some(999)
  {
    var s := "999";
    assert s[..2] == "99" && s[..2][..1] == "9" && s[..2][..1][..0] == [];
    assert AllDigits(s);
    assert DigitsValue("9") == 9;
    assert DigitsValue("99") == 99;
    assert DigitsValue(s) == 999;
  }

  /**
   * The month prefix is not padded, so in January the October, November and December
   * IDs of the same year also match "A1": after "A10-005" January continues at 6.
   */
  lemma JanuaryReadsOctober()
    ensures GenerateTaskId(2025, 1, Some(2025), ["A10-005"]) == Some("A1-006")
  {
    PrefixA1();
    var titles := ["A10-005"];
    assert StartsWith("A10-005", "A1");
    assert WithPrefix(titles, "A1") == titles by { assert titles[1..] == []; }
    SplitAtDash("A10", "005");
    assert "A10" + "-" + "005" == "A10-005";
    ParseFive();
    GenerateFromLast(2025, 1, Some(2025), titles, "A10-005", 5);
    PadSix();
    assert "A1" + "-" + "006" == "A1-006";
  }

  /**
   * Past sequence 999 the lexicographic maximum is no longer the numeric one:
   * "A1-999" sorts after "A1-1000", so the next ID is "A1-1000" again, a title that
   * already exists.
   */
  lemma DuplicateAfter999()
    ensures var titles := ["A1-999", "A1-1000"];
      var r := GenerateTaskId(2025, 1, Some(2025), titles);
      r == Some("A1-1000") && r.value in titles
  {
    PrefixA1();
    var titles := ["A1-999", "A1-1000"];
    assert StartsWith("A1-999", "A1") && StartsWith("A1-1000", "A1");
    assert WithPrefix(titles, "A1") == titles by {
      assert titles[1..] == ["A1-1000"] && titles[1..][1..] == [];
    }
    assert LessThan("A1-1000", "A1-999");
    assert LexMax(titles) == "A1-999" by { assert titles[1..] == ["A1-1000"]; }
    SplitAtDash("A1", "999");
    assert "A1" + "-" + "999" == "A1-999";
    ParseNineNineNine();
    GenerateFromLast(2025, 1, Some(2025), titles, "A1-999", 999);
    PadThousand();
    assert "A1" + "-" + "1000" == "A1-1000";
  }

  /** A title whose last piece is not a number makes the generator fail. */
  lemma NonNumericSuffixFails()
    ensures GenerateTaskId(2025, 3, Some(2025), ["A3-x"]) == None
  {
    assert NatToString(3) == "3";
    var titles := ["A3-x"];
    assert StartsWith("A3-x", "A3");
    assert WithPrefix(titles, "A3") == titles by { assert titles[1..] == []; }
    SplitAtDash("A3", "x");
    assert "A3" + "-" + "x" == "A3-x";
    GenerateTaskIdShape(2025, 3, Some(2025), titles);
  }

  /** The sequence number of `title` in the month `prefix`: the digits after "prefix-". */
  function SeqUnder(title: string, prefix: string): Option<nat> {
    if StartsWith(title, prefix + "-") then ParseNat(title[|prefix| + 1..]) else None
  }

  /** The greatest sequence number already used in the month (0 when none is). */
  function MaxSeqUnder(titles: seq<string>, prefix: string): (m: nat)
    ensures forall i :: 0 <= i < |titles| && SeqUnder(titles[i], prefix).Some? ==>
      SeqUnder(titles[i], prefix).value <= m
  {
    if titles == [] then 0
    else
      var rest := MaxSeqUnder(titles[1..], prefix);
      assert forall i :: 1 <= i < |titles| ==> titles[i] == titles[1..][i - 1];
      match SeqUnder(titles[0], prefix)
      case None => rest
      case Some(n) => if n > rest then n else rest
  }

  /**
   * The intended generator: the next number after the numerically greatest one used
   * under exactly "prefix-". The ID it returns is never an existing title.
   */
  function NextTaskId(nowYear: int, nowMonth: nat, firstYear: Option<int>, titles: seq<string>): (id: string)
    requires ClockOk(nowYear, firstYear)
    ensures StartsWith(id, MonthPrefix(nowYear, nowMonth, firstYear) + "-")
    ensures id !in titles
  {
    var prefix := MonthPrefix(nowYear, nowMonth, firstYear);
    var next := MaxSeqUnder(titles, prefix) + 1;
    var id := prefix + "-" + ZeroPad(next, 3);
    assert id[..|prefix| + 1] == prefix + "-";
    assert id[|prefix| + 1..] == ZeroPad(next, 3);
    ZeroPadValue(next, 3);
    assert SeqUnder(id, prefix) == Some(next);
    id
  }

  /** Each new ID's number is one more than every number already used that month. */
  lemma NextTaskIdAdvances(nowYear: int, nowMonth: nat, firstYear: Option<int>, titles: seq<string>)
    requires ClockOk(nowYear, firstYear)
    ensures var prefix := MonthPrefix(nowYear, nowMonth, firstYear);
      var id := NextTaskId(nowYear, nowMonth, firstYear, titles);
      SeqUnder(id, prefix) == Some(MaxSeqUnder(titles, prefix) + 1)
      && MaxSeqUnder(titles + [id], prefix) == MaxSeqUnder(titles, prefix) + 1
  {
    var prefix := MonthPrefix(nowYear, nowMonth, firstYear);
    var next := MaxSeqUnder(titles, prefix) + 1;
    var id := NextTaskId(nowYear, nowMonth, firstYear, titles);
    assert id == prefix + "-" + ZeroPad(next, 3);
    assert id[..|prefix| + 1] == prefix + "-";
    assert id[|prefix| + 1..] == ZeroPad(next, 3);
    ZeroPadValue(next, 3);
    MaxSeqUnderSnoc(titles, id, prefix);
  }

  lemma {:induction false} MaxSeqUnderSnoc(titles: seq<string>, t: string, prefix: string)
    ensures MaxSeqUnder(titles + [t], prefix) ==
      match SeqUnder(t, prefix)
      case None => MaxSeqUnder(titles, prefix)
      case Some(n) => if n > MaxSeqUnder(titles, prefix) then n else MaxSeqUnder(titles, prefix)
    decreases |titles|
  {
    if titles != [] {
      assert (titles + [t])[1..] == titles[1..] + [t];
      MaxSeqUnderSnoc(titles[1..], t, prefix);
    } else {
      assert [t][1..] == [];
    }
  }
}
