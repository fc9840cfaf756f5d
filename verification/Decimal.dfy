/** Decimal printing: `format_n` of src/report.rs and the numbered names of `make_queue_names`. */
module Decimal {
  import opened Basics

  predicate IsDigit(c: char) { '0' <= c <= '9' }

  predicate AllDigits(s: string) { forall i :: 0 <= i < |s| ==> IsDigit(s[i]) }

  function DigitChar(d: nat): (c: char)
    requires d < 10
    ensures IsDigit(c)
  {
    '0' + d as char
  }

  function DigitValue(c: char): nat
    requires IsDigit(c)
  {
    c as int - '0' as int
  }

  /** `u64::to_string`. */
  function Print(n: nat): (s: string)
    ensures s != [] && AllDigits(s)
  {
    if n < 10 then [DigitChar(n)] else Print(n / 10) + [DigitChar(n % 10)]
  }

  /** The number a digit string stands for. */
  function Parse(s: string): nat
    requires AllDigits(s)
  {
    if s == [] then 0 else 10 * Parse(s[..|s| - 1]) + DigitValue(s[|s| - 1])
  }

  lemma {:induction false} ParsePrint(n: nat)
    ensures Parse(Print(n)) == n
    ensures n > 0 ==> Print(n)[0] != '0'
  {
    if n >= 10 {
      ParsePrint(n / 10);
      assert Print(n)[..|Print(n)| - 1] == Print(n / 10);
      assert Print(n)[0] == Print(n / 10)[0];
    } else {
      assert Print(n)[..0] == [];
    }
  }

  lemma PrintInjective(m: nat, n: nat)
    requires Print(m) == Print(n)
    ensures m == n
  {
    ParsePrint(m);
    ParsePrint(n);
  }

  // ---- Thousands separators ------------------------------------------------------

  function WithoutCommas(s: string): string {
    if s == [] then []
    else WithoutCommas(s[..|s| - 1]) + (if s[|s| - 1] == ',' then [] else [s[|s| - 1]])
  }

  function Reverse(s: string): (r: string)
    ensures |r| == |s| && forall k :: 0 <= k < |s| ==> r[k] == s[|s| - 1 - k]
  {
    if s == [] then [] else [s[|s| - 1]] + Reverse(s[..|s| - 1])
  }

  lemma {:induction false} CommasAppend(s: string, t: string)
    ensures WithoutCommas(s + t) == WithoutCommas(s) + WithoutCommas(t)
  {
    if t == [] {
      assert s + t == s;
    } else {
      var u := t[..|t| - 1];
      assert (s + t)[..|s + t| - 1] == s + u;
      CommasAppend(s, u);
    }
  }

  lemma {:induction false} CommasReverse(s: string)
    ensures WithoutCommas(Reverse(s)) == Reverse(WithoutCommas(s))
  {
    if s == [] {
    } else {
      var c, u := s[|s| - 1], s[..|s| - 1];
      CommasReverse(u);
      CommasAppend([c], Reverse(u));
      assert [c][..0] == [];
      assert WithoutCommas([c]) == if c == ',' then [] else [c];
      var v := WithoutCommas(u);
      if c != ',' {
        assert (v + [c])[..|v|] == v;
      } else {
        assert v + [] == v;
      }
    }
  }

  function Mark(i: nat): string { if i > 0 && i % 3 == 0 then [','] else [] }

  /** The first `i` rounds of the loop of `format_n` on digits `t`, least significant first. */
  function GroupTo(t: string, i: nat): string
    requires i <= |t|
  {
    if i == 0 then [] else GroupTo(t, i - 1) + Mark(i - 1) + [t[i - 1]]
  }

  /** Where digit `i` and the separator before it land. */
  lemma {:induction false} Places(i: nat)
    ensures var at := if i == 0 then 0 else i + (i - 1) / 3;
            && (Mark(i) != [] ==> at % 4 == 3 && (at + 1) % 4 != 3)
            && (Mark(i) == [] ==> at % 4 != 3)
            && at + |Mark(i)| == i + i / 3
  {
    if i >= 4 {
      Places(i - 3);
    }
  }

  lemma NextPlaces(head: string, mark: string, c: char)
    requires forall k :: 0 <= k < |head| ==> (head[k] == ',' <==> k % 4 == 3)
    requires c != ',' && (mark == [] || mark == [','])
    requires mark != [] ==> |head| % 4 == 3 && (|head| + 1) % 4 != 3
    requires mark == [] ==> |head| % 4 != 3
    ensures var s := head + mark + [c]; forall k :: 0 <= k < |s| ==> (s[k] == ',' <==> k % 4 == 3)
  {
  }

  /** Separators sit at every fourth place. */
  lemma {:induction false} GroupShape(t: string, i: nat)
    requires AllDigits(t) && i <= |t|
    ensures |GroupTo(t, i)| == (if i == 0 then 0 else i + (i - 1) / 3)
    ensures forall k :: 0 <= k < |GroupTo(t, i)| ==> (GroupTo(t, i)[k] == ',' <==> k % 4 == 3)
  {
    if i == 0 {
    } else {
      GroupShape(t, i - 1);
      Places(i - 1);
      NextPlaces(GroupTo(t, i - 1), Mark(i - 1), t[i - 1]);
    }
  }

  lemma StripOne(c: char)
    ensures WithoutCommas([c]) == if c == ',' then [] else [c]
  {
    assert [c][..0] == [];
  }

  lemma StripNext(head: string, mark: string, c: char)
    requires (mark == [] || mark == [',']) && c != ','
    ensures WithoutCommas(head + mark + [c]) == WithoutCommas(head) + [c]
  {
    CommasAppend(head + mark, [c]);
    CommasAppend(head, mark);
    StripOne(',');
    StripOne(c);
    assert WithoutCommas(mark) == [];
  }

  /** Removing the separators gives the digits back. */
  lemma {:induction false} GroupDigits(t: string, i: nat)
    requires AllDigits(t) && i <= |t|
    ensures WithoutCommas(GroupTo(t, i)) == t[..i]
  {
    if i == 0 {
    } else {
      var head, mark, c := GroupTo(t, i - 1), Mark(i - 1), t[i - 1];
      GroupDigits(t, i - 1);
      StripNext(head, mark, c);
      assert t[..i] == t[..i - 1] + [c];
      assert GroupTo(t, i) == head + mark + [c];
    }
  }

  /** Separators sit after every third digit, counted from the right, and nowhere else. */
  ghost predicate Grouped(s: string) {
    forall k :: 0 <= k < |s| ==> (s[|s| - 1 - k] == ',' <==> k % 4 == 3)
  }

  /**
    The printed number is the plain decimal with separators every three digits: removing
    them gives the digits back, which read as `n`, the leftmost group has one to three,
    and there are (digits - 1) / 3 separators.
    */
  method FormatN(n: nat) returns (r: string)
    ensures WithoutCommas(r) == Print(n) && Parse(WithoutCommas(r)) == n
    ensures Grouped(r) && r != [] && r[0] != ','
    ensures |r| == |Print(n)| + (|Print(n)| - 1) / 3
  {
    var s := Print(n);
    ghost var t := Reverse(s);
    var result: string := [];
    var i := 0;
    while i < |s|
      invariant 0 <= i <= |s|
      invariant result == GroupTo(t, i)
    {
      if i > 0 && i % 3 == 0 {
        result := result + [','];
      }
      result := result + [s[|s| - 1 - i]];
      i := i + 1;
    }
    r := Reverse(result);
    GroupedPrint(s, t, result);
    ParsePrint(n);
  }

  lemma ReverseReverse(s: string)
    ensures Reverse(Reverse(s)) == s
  {
  }

  lemma GroupedReverse(s: string)
    requires forall k :: 0 <= k < |s| ==> (s[k] == ',' <==> k % 4 == 3)
    ensures Grouped(Reverse(s))
  {
  }

  lemma StripReverse(t: string, result: string)
    requires WithoutCommas(result) == Reverse(t)
    ensures WithoutCommas(Reverse(result)) == t
  {
    CommasReverse(result);
    ReverseReverse(t);
  }

  lemma GroupFacts(t: string, n: nat)
    requires AllDigits(t) && n == |t| > 0
    ensures var g := GroupTo(t, n);
            && |g| == n + (n - 1) / 3 && g[|g| - 1] != ',' && WithoutCommas(g) == t
            && forall k :: 0 <= k < |g| ==> (g[k] == ',' <==> k % 4 == 3)
  {
    GroupShape(t, n);
    GroupDigits(t, n);
    assert t[..n] == t;
  }

  lemma ReverseDigits(s: string)
    requires AllDigits(s)
    ensures AllDigits(Reverse(s))
  {
  }

  /** The final reversal. */
  lemma Unreversed(s: string, result: string)
    requires result != [] && WithoutCommas(result) == Reverse(s) && result[|result| - 1] != ','
    requires forall k :: 0 <= k < |result| ==> (result[k] == ',' <==> k % 4 == 3)
    ensures var r := Reverse(result);
            WithoutCommas(r) == s && Grouped(r) && |r| == |result| && r[0] != ','
  {
    StripReverse(s, result);
    GroupedReverse(result);
  }

  lemma {:induction false} GroupedPrint(s: string, t: string, result: string)
    requires AllDigits(s) && s != [] && t == Reverse(s) && |t| == |s| && result == GroupTo(t, |t|)
    ensures var r := Reverse(result);
            WithoutCommas(r) == s && Grouped(r) && |r| == |s| + (|s| - 1) / 3 && r != [] && r[0] != ','
  {
    ReverseDigits(s);
    GroupFacts(t, |t|);
    Unreversed(s, result);
  }

  // ---- Queue names ---------------------------------------------------------------

  /** `make_queue_names`. */
  function QueueNames(base: string, n: nat): seq<string> {
    if n <= 1 then [base] else seq(n, i requires 0 <= i => base + "_" + Print(i))
  }

  /** One queue has the base name itself; several are numbered from 0, so that the number can be read off. */
  lemma QueueNamesAreNumbered(base: string, n: nat)
    ensures n <= 1 ==> QueueNames(base, n) == [base]
    ensures n > 1 ==> |QueueNames(base, n)| == n && forall i :: 0 <= i < n ==>
              var name := QueueNames(base, n)[i]; var suffix := name[|base| + 1..];
              && |name| > |base| + 1 && name[..|base| + 1] == base + "_"
              && AllDigits(suffix) && Parse(suffix) == i && suffix == Print(i)
  {
    if n > 1 {
      forall i | 0 <= i < n
        ensures var name := QueueNames(base, n)[i];
                |name| > |base| + 1 && name[..|base| + 1] == base + "_" && name[|base| + 1..] == Print(i) && Parse(Print(i)) == i
      {
        var name := QueueNames(base, n)[i];
        assert name == (base + "_") + Print(i);
        ParsePrint(i);
      }
    }
  }

  lemma QueueNamesAreDistinct(base: string, n: nat)
    ensures |QueueNames(base, n)| == (if n == 0 then 1 else n) && Distinct(QueueNames(base, n))
  {
    var names := QueueNames(base, n);
    forall i, j | 0 <= i < j < |names| ensures names[i] != names[j] {
      if names[i] == names[j] {
        var p := base + "_";
        assert (p + Print(i))[|p|..] == Print(i) && (p + Print(j))[|p|..] == Print(j);
        PrintInjective(i, j);
      }
    }
  }
}
