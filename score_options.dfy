/**
 * The score choices offered for a goal event: every result "(home–away)" with at most ten
 * goals a side, listed by total goals and then by home goals.
 */
module ScoreOptions {
  import opened Wrappers
  import opened Text

  const MaxGoals := 10
  const Dash: char := '–'

  /** `(${home}–${away})`, with an en dash between the scores. */
  function ScoreText(home: nat, away: nat): string
  {
    "(" + Digits(home) + [Dash] + Digits(away) + ")"
  }

  /** The scores the inner loop pushes for one total, from home goal count `home` upward. */
  function Row(total: nat, home: nat): seq<(nat, nat)>
    decreases total + 1 - home
  {
    if home > total then []
    else (if total - home <= MaxGoals && home <= MaxGoals then [(home, total - home)] else []) + Row(total, home + 1)
  }

  /** The scores pushed for every total below `totals`. */
  function Pairs(totals: nat): seq<(nat, nat)>
  {
    if totals == 0 then [] else Pairs(totals - 1) + Row(totals - 1, 0)
  }

  /** The option texts of a list of scores. */
  function Texts(ps: seq<(nat, nat)>): seq<string>
  {
    Render(ScoreText, ps)
  }

  function Render(text: (nat, nat) -> string, ps: seq<(nat, nat)>): seq<string>
  {
    if ps == [] then [] else [text(ps[0].0, ps[0].1)] + Render(text, ps[1..])
  }

  /** All the scores the loops produce: totals 0 to 20. */
  function ScorePairs(): seq<(nat, nat)>
  {
    Pairs(2 * MaxGoals + 1)
  }

  /** Listed before: fewer total goals, or as many and fewer home goals. */
  predicate Before(p: (nat, nat), q: (nat, nat))
  {
    p.0 + p.1 < q.0 + q.1 || (p.0 + p.1 == q.0 + q.1 && p.0 < q.0)
  }

  lemma {:induction false} RenderAppend(text: (nat, nat) -> string, a: seq<(nat, nat)>, b: seq<(nat, nat)>)
    ensures Render(text, a + b) == Render(text, a) + Render(text, b)
  {
    if a == [] {
      assert a + b == b;
    } else {
      RenderAppend(text, a[1..], b);
      assert (a + b)[0] == a[0];
      assert (a + b)[1..] == a[1..] + b;
    }
  }

  lemma {:induction false} RenderIndex(text: (nat, nat) -> string, a: seq<(nat, nat)>)
    ensures |Render(text, a)| == |a|
    ensures forall i :: 0 <= i < |a| ==> Render(text, a)[i] == text(a[i].0, a[i].1)
  {
    if a != [] {
      RenderIndex(text, a[1..]);
      forall i | 1 <= i < |a| ensures Render(text, a)[i] == text(a[i].0, a[i].1) {
        assert Render(text, a)[i] == Render(text, a[1..])[i - 1];
      }
    }
  }

  lemma TextsAppend(a: seq<(nat, nat)>, b: seq<(nat, nat)>)
    ensures Texts(a + b) == Texts(a) + Texts(b)
  {
    RenderAppend(ScoreText, a, b);
  }

  lemma TextsIndex(a: seq<(nat, nat)>)
    ensures |Texts(a)| == |a|
    ensures forall i :: 0 <= i < |a| ==> Texts(a)[i] == ScoreText(a[i].0, a[i].1)
  {
    RenderIndex(ScoreText, a);
  }

  /** One step of the inner loop: the score at `home` is pushed when both sides are at most ten. */
  lemma RowStep(total: nat, home: nat)
    requires home <= total
    ensures Texts(Row(total, home))
      == (if total - home <= MaxGoals && home <= MaxGoals then [ScoreText(home, total - home)] else [])
         + Texts(Row(total, home + 1))
  {
    var head := if total - home <= MaxGoals && home <= MaxGoals then [(home, total - home)] else [];
    TextsAppend(head, Row(total, home + 1));
  }

  lemma Associative<T>(a: seq<T>, b: seq<T>, c: seq<T>)
    ensures a + (b + c) == (a + b) + c
  {
  }

  /** generateScoreOptions: for each total 0..20, push the scores with that total. */
  method GenerateScoreOptions() returns (scores: seq<string>)
    ensures scores == Texts(ScorePairs())
  {
    scores := [];
    var total := 0;
    while total <= 2 * MaxGoals
      invariant 0 <= total <= 2 * MaxGoals + 1
      invariant scores == Texts(Pairs(total))
    {
      TextsAppend(Pairs(total), Row(total, 0));
      scores := PushRow(scores, total);
      total := total + 1;
    }
  }

  /** The inner loop of generateScoreOptions: each home count 0..total, pushed when both sides are at most ten. */
  method PushRow(init: seq<string>, total: nat) returns (scores: seq<string>)
    ensures scores == init + Texts(Row(total, 0))
  {
    scores := init;
    var home := 0;
    while home <= total
      invariant 0 <= home <= total + 1
      invariant scores + Texts(Row(total, home)) == init + Texts(Row(total, 0))
    {
      var away := total - home;
      RowStep(total, home);
      ghost var rest := Texts(Row(total, home + 1));
      if away <= MaxGoals && home <= MaxGoals {
        Associative(scores, [ScoreText(home, away)], rest);
        scores := scores + [ScoreText(home, away)];
      } else {
        assert Texts(Row(total, home)) == rest;
      }
      home := home + 1;
    }
  }

  /** A row holds exactly the scores with that total, home count from `home` up, and at most ten a side. */
  lemma RowMembers(total: nat, home: nat)
    ensures forall p :: p in Row(total, home) <==>
      home <= p.0 && p.0 + p.1 == total && p.0 <= MaxGoals && p.1 <= MaxGoals
  {
    forall p: (nat, nat) ensures p in Row(total, home) <==>
      home <= p.0 && p.0 + p.1 == total && p.0 <= MaxGoals && p.1 <= MaxGoals
    {
      RowMember(total, home, p);
    }
  }

  lemma {:induction false} RowMember(total: nat, home: nat, p: (nat, nat))
    ensures p in Row(total, home) <==> home <= p.0 && p.0 + p.1 == total && p.0 <= MaxGoals && p.1 <= MaxGoals
    decreases total + 1 - home
  {
    if home <= total {
      RowMember(total, home + 1, p);
    }
  }

  /** A row lists its scores by increasing home goals. */
  lemma {:induction false} RowOrdered(total: nat, home: nat)
    ensures forall i, j :: 0 <= i < j < |Row(total, home)| ==> Row(total, home)[i].0 < Row(total, home)[j].0
    decreases total + 1 - home
  {
    if home <= total {
      RowOrdered(total, home + 1);
      RowMembers(total, home + 1);
      var r := Row(total, home + 1);
      forall j | 0 <= j < |r| ensures r[j].0 > home {
        assert r[j] in r;
      }
    }
  }

  /** The scores pushed for totals below `totals` are exactly those with at most ten a side and fewer goals than `totals`. */
  lemma PairsMembers(totals: nat)
    ensures forall p :: p in Pairs(totals) <==> p.0 <= MaxGoals && p.1 <= MaxGoals && p.0 + p.1 < totals
  {
    forall p: (nat, nat) ensures p in Pairs(totals) <==> p.0 <= MaxGoals && p.1 <= MaxGoals && p.0 + p.1 < totals {
      PairsMember(totals, p);
    }
  }

  lemma {:induction false} PairsMember(totals: nat, p: (nat, nat))
    ensures p in Pairs(totals) <==> p.0 <= MaxGoals && p.1 <= MaxGoals && p.0 + p.1 < totals
  {
    if totals > 0 {
      PairsMember(totals - 1, p);
      RowMember(totals - 1, 0, p);
      assert Pairs(totals) == Pairs(totals - 1) + Row(totals - 1, 0);
    }
  }

  /** The scores are listed by total goals and then by home goals. */
  lemma {:induction false} PairsOrdered(totals: nat)
    ensures forall i, j :: 0 <= i < j < |Pairs(totals)| ==> Before(Pairs(totals)[i], Pairs(totals)[j])
  {
    if totals > 0 {
      PairsOrdered(totals - 1);
      PairsMembers(totals - 1);
      RowMembers(totals - 1, 0);
      RowOrdered(totals - 1, 0);
      var a, b := Pairs(totals - 1), Row(totals - 1, 0);
      forall i, j | 0 <= i < j < |a + b|
        ensures Before((a + b)[i], (a + b)[j])
      {
        if j < |a| {
          assert (a + b)[i] == a[i] && (a + b)[j] == a[j];
        } else if i >= |a| {
          assert (a + b)[i] == b[i - |a|] && (a + b)[j] == b[j - |a|];
          assert b[i - |a|] in b && b[j - |a|] in b;
        } else {
          assert a[i] in a;
          assert b[j - |a|] in b;
        }
      }
    }
  }

  function Max(a: int, b: int): int { if a >= b then a else b }
  function Min(a: int, b: int): int { if a <= b then a else b }

  /** How many home counts from `home` to `total` leave both sides at most ten. */
  function RowSize(total: nat, home: nat): nat
  {
    var lo := Max(home, total - MaxGoals);
    var hi := Min(total, MaxGoals);
    if hi < lo then 0 else hi - lo + 1
  }

  function PairsSize(totals: nat): nat
  {
    if totals == 0 then 0 else PairsSize(totals - 1) + RowSize(totals - 1, 0)
  }

  lemma {:induction false} RowLength(total: nat, home: nat)
    ensures |Row(total, home)| == RowSize(total, home)
    decreases total + 1 - home
  {
    if home <= total {
      RowLength(total, home + 1);
    }
  }

  lemma {:induction false} PairsLength(totals: nat)
    ensures |Pairs(totals)| == PairsSize(totals)
  {
    if totals > 0 {
      PairsLength(totals - 1);
      RowLength(totals - 1, 0);
    }
  }

  /** The loops push 121 options. */
  lemma ScorePairsCount()
    ensures |Texts(ScorePairs())| == 121
  {
    PairsCount(2 * MaxGoals + 1);
    TextsIndex(ScorePairs());
  }

  lemma PairsCount(totals: nat)
    requires totals == 2 * MaxGoals + 1
    ensures |Pairs(totals)| == 121
  {
    PairsLength(totals);
    PairsSizeValue();
  }

  lemma PairsSizeValue()
    ensures PairsSize(21) == 121
  {
    assert PairsSize(1) == 1;
    assert PairsSize(2) == 3;
    assert PairsSize(3) == 6;
    assert PairsSize(4) == 10;
    assert PairsSize(5) == 15;
    assert PairsSize(6) == 21;
    assert PairsSize(7) == 28;
    assert PairsSize(8) == 36;
    assert PairsSize(9) == 45;
    assert PairsSize(10) == 55;
    assert PairsSize(11) == 66;
    assert PairsSize(12) == 76;
    assert PairsSize(13) == 85;
    assert PairsSize(14) == 93;
    assert PairsSize(15) == 100;
    assert PairsSize(16) == 106;
    assert PairsSize(17) == 111;
    assert PairsSize(18) == 115;
    assert PairsSize(19) == 118;
    assert PairsSize(20) == 120;
    assert PairsSize(21) == 121;
  }

  /** Reads a score text back: the numerals between the brackets, on either side of the dash. */
  function ReadScore(text: string): Option<(nat, nat)>
  {
    if |text| < 2 || text[0] != '(' || text[|text| - 1] != ')' then None
    else match SplitAt(text[1..|text| - 1], Dash)
      case None => None
      case Some((a, b)) =>
        if a != [] && b != [] && AllDigits(a, 10) && AllDigits(b, 10) then Some((Value(a, 10), Value(b, 10))) else None
  }

  /** A score text reads back as the score it was written from. */
  lemma ScoreTextReading(home: nat, away: nat)
    ensures ReadScore(ScoreText(home, away)) == Some((home, away))
  {
    var d1, d2 := Digits(home), Digits(away);
    var text := ScoreText(home, away);
    assert text[1..|text| - 1] == d1 + [Dash] + d2;
    SeparatorNotInDigits(d1, Dash);
    SplitAtJoin(d1, Dash, d2);
    ValueOfDigits(home);
    ValueOfDigits(away);
  }

  /** Every score with at most ten goals a side is offered. */
  lemma ScoreOptionsComplete(home: nat, away: nat)
    requires home <= MaxGoals && away <= MaxGoals
    ensures ScoreText(home, away) in Texts(ScorePairs())
  {
    var ps := ScorePairs();
    PairsMembers(2 * MaxGoals + 1);
    TextsIndex(ps);
    assert (home, away) in ps;
    var i :| 0 <= i < |ps| && ps[i] == (home, away);
    assert Texts(ps)[i] == ScoreText(home, away);
  }

  /** No option is offered twice. */
  lemma ScoreOptionsDistinct()
    ensures forall i, j :: 0 <= i < j < |Texts(ScorePairs())| ==> Texts(ScorePairs())[i] != Texts(ScorePairs())[j]
  {
    var ps := ScorePairs();
    PairsOrdered(2 * MaxGoals + 1);
    TextsIndex(ps);
    forall i, j | 0 <= i < j < |Texts(ps)|
      ensures Texts(ps)[i] != Texts(ps)[j]
    {
      ScoreTextReading(ps[i].0, ps[i].1);
      ScoreTextReading(ps[j].0, ps[j].1);
      assert Before(ps[i], ps[j]);
    }
  }
}
