/**
 * The six named skills of a skill vector and their ranking by value, as
 * the dashboard and the strengths panel compute it: a stable sort by
 * descending value (`sort((a, b) => b.value - a.value)`), then the first
 * three.
 */
module SkillRanking {
  import opened Types

  datatype Skill = Skill(name: string, value: int)

  /** The skills in their fixed display order. */
  function SkillList(v: SkillVector): (s: seq<Skill>)
    ensures |s| == 6
  {
    [ Skill("Technical", v.technical), Skill("Creative", v.creative), Skill("Analytical", v.analytical),
      Skill("Leadership", v.leadership), Skill("Communication", v.communication),
      Skill("Problem Solving", v.problemSolving) ]
  }

  predicate SortedDesc(s: seq<Skill>) {
    forall i, j :: 0 <= i < j < |s| ==> s[i].value >= s[j].value
  }

  /** Places `x` before the first skill whose value does not exceed its own. */
  function Insert(x: Skill, s: seq<Skill>): (r: seq<Skill>)
    ensures multiset(r) == multiset(s) + multiset{x}
    ensures |r| == |s| + 1
    ensures r[0] == x || (|s| > 0 && r[0] == s[0])
  {
    if |s| == 0 then [x]
    else if s[0].value <= x.value then [x] + s
    else
      assert s == [s[0]] + s[1..];
      [s[0]] + Insert(x, s[1..])
  }

  lemma {:induction false} InsertSorted(x: Skill, s: seq<Skill>)
    requires SortedDesc(s)
    ensures SortedDesc(Insert(x, s))
  {
    if |s| > 0 && s[0].value > x.value {
      var rest := Insert(x, s[1..]);
      InsertSorted(x, s[1..]);
      assert rest[0].value <= s[0].value;
      var r := [s[0]] + rest;
      forall i, j | 0 <= i < j < |r|
        ensures r[i].value >= r[j].value
      {
        if i == 0 {
          assert r[j] == rest[j - 1];
          assert rest[0].value >= rest[j - 1].value;
        } else {
          assert r[i] == rest[i - 1] && r[j] == rest[j - 1];
        }
      }
    }
  }

  /** The number of leading skills worth strictly more than `x`. */
  function InsertAt(x: Skill, s: seq<Skill>): (k: nat)
    ensures k <= |s|
  {
    if |s| == 0 || s[0].value <= x.value then 0 else 1 + InsertAt(x, s[1..])
  }

  /**
   * `Insert` puts `x` after exactly the leading skills worth strictly more,
   * hence before every skill of equal value: the sort built from it is stable.
   */
  lemma {:induction false} InsertPosition(x: Skill, s: seq<Skill>)
    ensures Insert(x, s) == s[..InsertAt(x, s)] + [x] + s[InsertAt(x, s)..]
  {
    if |s| > 0 && s[0].value > x.value {
      var t := s[1..];
      var k := InsertAt(x, t);
      InsertPosition(x, t);
      ConsSplit(s[0], t, [x], k);
      assert s == [s[0]] + t;
    } else {
      assert s[..0] == [] && s[0..] == s;
    }
  }

  lemma ConsSplit(a: Skill, t: seq<Skill>, mid: seq<Skill>, k: nat)
    requires k <= |t|
    ensures [a] + (t[..k] + mid + t[k..]) == ([a] + t)[..k + 1] + mid + ([a] + t)[k + 1..]
  {
    assert ([a] + t)[..k + 1] == [a] + t[..k];
    assert ([a] + t)[k + 1..] == t[k..];
  }

  /** The skills `Insert` puts ahead of `x` are worth more, and the one after it is not. */
  lemma {:induction false} InsertAtBounds(x: Skill, s: seq<Skill>)
    ensures forall j :: 0 <= j < InsertAt(x, s) ==> s[j].value > x.value
    ensures InsertAt(x, s) < |s| ==> s[InsertAt(x, s)].value <= x.value
  {
    if |s| > 0 && s[0].value > x.value {
      InsertAtBounds(x, s[1..]);
      assert forall j :: 1 <= j < InsertAt(x, s) ==> s[j] == s[1..][j - 1];
    }
  }

  /** Skills ordered by non-increasing value; equal values keep their relative order. */
  function SortByValue(s: seq<Skill>): (r: seq<Skill>)
    ensures SortedDesc(r)
    ensures multiset(r) == multiset(s)
    ensures |r| == |s|
  {
    if |s| == 0 then []
    else
      assert s == [s[0]] + s[1..];
      InsertSorted(s[0], SortByValue(s[1..]));
      Insert(s[0], SortByValue(s[1..]))
  }

  function Min(a: nat, b: nat): nat {
    if a <= b then a else b
  }

  /** A sorted sequence cut in two: a sorted front, the same elements, and nothing behind the cut above the front. */
  lemma SortedSplit(s: seq<Skill>, k: nat)
    requires SortedDesc(s) && k <= |s|
    ensures SortedDesc(s[..k])
    ensures multiset(s[..k]) + multiset(s[k..]) == multiset(s)
    ensures forall i, j :: 0 <= i < k && 0 <= j < |s| - k ==> s[..k][i].value >= s[k..][j].value
  {
    assert s == s[..k] + s[k..];
    forall i, j | 0 <= i < k && 0 <= j < |s| - k
      ensures s[..k][i].value >= s[k..][j].value
    {
      assert s[..k][i] == s[i] && s[k..][j] == s[k + j];
    }
    forall i, j | 0 <= i < j < k
      ensures s[..k][i].value >= s[..k][j].value
    {
      assert s[..k][i] == s[i] && s[..k][j] == s[j];
    }
  }

  /** `sorted.slice(0, n)`: the first `min(n, |s|)` of the ranking. */
  function Top(s: seq<Skill>, n: nat): (top: seq<Skill>)
    ensures |top| == Min(n, |s|)
    ensures SortedDesc(top)
  {
    SortedSplit(SortByValue(s), Min(n, |s|));
    SortByValue(s)[..Min(n, |s|)]
  }

  /** The selected skills are skills of the input, each at most as often as there. */
  lemma TopDrawnFromInput(s: seq<Skill>, n: nat)
    ensures multiset(Top(s, n)) <= multiset(s)
    ensures forall i :: 0 <= i < |Top(s, n)| ==> Top(s, n)[i] in s
  {
    var sorted := SortByValue(s);
    var k := Min(n, |s|);
    SortedSplit(sorted, k);
    var top := Top(s, n);
    assert forall i :: 0 <= i < |top| ==> top[i] in multiset(s);
  }

  /** No skill left out of the selection is worth more than a selected one. */
  lemma TopDominates(s: seq<Skill>, n: nat)
    ensures forall i, b :: 0 <= i < |Top(s, n)| && b in multiset(s) - multiset(Top(s, n)) ==> Top(s, n)[i].value >= b.value
  {
    var sorted := SortByValue(s);
    var k := Min(n, |s|);
    SortedSplit(sorted, k);
    var top := sorted[..k];
    assert multiset(s) - multiset(top) == multiset(sorted[k..]);
    assert forall b :: b in multiset(sorted[k..]) ==> b in sorted[k..];
  }
}
