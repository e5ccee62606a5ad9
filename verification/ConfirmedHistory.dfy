/** The bounded model context: whole confirmed user/assistant pairs only, never
    a turn trimmed midway. */
module ConfirmedHistory {
  import opened JsText

  datatype Role = User | Assistant

  datatype Turn = Turn(role: Role, content: Text)

  datatype Pair = Pair(question: Text, answer: Text)

  const MAX_PAIRS: nat := 6
  const MAX_CONTEXT_BYTES: nat := 18_000

  function Cost(pair: Pair): nat {
    Utf8Length(pair.question) + Utf8Length(pair.answer)
  }

  function TotalCost(pairs: seq<Pair>): nat {
    if pairs == [] then 0 else Cost(pairs[0]) + TotalCost(pairs[1..])
  }

  function PairTurns(pair: Pair): seq<Turn> {
    [Turn(User, pair.question), Turn(Assistant, pair.answer)]
  }

  function Flatten(pairs: seq<Pair>): (turns: seq<Turn>)
    ensures |turns| == 2 * |pairs|
  {
    if pairs == [] then [] else PairTurns(pairs[0]) + Flatten(pairs[1..])
  }

  /** The pairs found at even positions; anything else there is skipped. */
  function PairsOf(turns: seq<Turn>): seq<Pair> {
    if |turns| < 2 then
      []
    else if turns[0].role == User && turns[1].role == Assistant then
      [Pair(turns[0].content, turns[1].content)] + PairsOf(turns[2..])
    else
      PairsOf(turns[2..])
  }

  /** A list of turns that consists of whole pairs. */
  ghost predicate Paired(turns: seq<Turn>) {
    turns == Flatten(PairsOf(turns))
  }

  /** Index of the oldest kept pair, given that `kept` newer pairs of `size`
      bytes in all are already kept and `remaining` older ones are left. */
  function OldestKept(pairs: seq<Pair>, remaining: nat, kept: nat, size: nat): (start: nat)
    requires remaining <= |pairs|
    ensures start <= remaining
  {
    if remaining == 0 || kept >= MAX_PAIRS then
      remaining
    else
      var bytes := Cost(pairs[remaining - 1]);
      if bytes > MAX_CONTEXT_BYTES || size + bytes > MAX_CONTEXT_BYTES then
        remaining
      else
        OldestKept(pairs, remaining - 1, kept + 1, size + bytes)
  }

  function BoundedPairs(pairs: seq<Pair>): seq<Pair> {
    pairs[OldestKept(pairs, |pairs|, 0, 0)..]
  }

  function BoundedHistory(turns: seq<Turn>): seq<Turn> {
    Flatten(BoundedPairs(PairsOf(turns)))
  }

  ghost predicate Fits(pairs: seq<Pair>) {
    |pairs| <= 6 && TotalCost(pairs) <= 18_000
  }

  // ---------- The bounded context is the longest suffix that fits ----------

  lemma TotalCostDrop(pairs: seq<Pair>, i: nat)
    requires i < |pairs|
    ensures TotalCost(pairs[i..]) == Cost(pairs[i]) + TotalCost(pairs[i + 1..])
  {
    assert pairs[i..][1..] == pairs[i + 1..];
  }

  lemma {:induction false} LargerSuffixCostsMore(pairs: seq<Pair>, i: nat, j: nat)
    requires i <= j <= |pairs|
    ensures TotalCost(pairs[j..]) <= TotalCost(pairs[i..])
    decreases j - i
  {
    if i < j {
      TotalCostDrop(pairs, i);
      LargerSuffixCostsMore(pairs, i + 1, j);
    }
  }

  lemma {:induction false} OldestKeptSeparates(pairs: seq<Pair>, remaining: nat, kept: nat, size: nat, j: nat)
    requires remaining <= |pairs| && j <= |pairs|
    requires kept == |pairs| - remaining && kept <= MAX_PAIRS
    requires size == TotalCost(pairs[remaining..]) && size <= MAX_CONTEXT_BYTES
    ensures Fits(pairs[j..]) <==> OldestKept(pairs, remaining, kept, size) <= j
    decreases remaining
  {
    hide Cost, TotalCost;
    if remaining <= j {
      LargerSuffixCostsMore(pairs, remaining, j);
    }
    if remaining > 0 && kept < MAX_PAIRS {
      TotalCostDrop(pairs, remaining - 1);
      var bytes := Cost(pairs[remaining - 1]);
      if bytes > MAX_CONTEXT_BYTES || size + bytes > MAX_CONTEXT_BYTES {
        if j < remaining {
          LargerSuffixCostsMore(pairs, j, remaining - 1);
        }
      } else {
        OldestKeptSeparates(pairs, remaining - 1, kept + 1, size + bytes, j);
      }
    }
  }

  /** A suffix of the pairs fits the two bounds exactly when it is no longer
      than the kept one: the kept suffix is the longest that fits. */
  lemma BoundedPairsIsLongestFit(pairs: seq<Pair>, j: nat)
    requires j <= |pairs|
    ensures Fits(BoundedPairs(pairs))
    ensures Fits(pairs[j..]) <==> |pairs[j..]| <= |BoundedPairs(pairs)|
  {
    assert pairs[|pairs|..] == [];
    OldestKeptSeparates(pairs, |pairs|, 0, 0, j);
    OldestKeptSeparates(pairs, |pairs|, 0, 0, OldestKept(pairs, |pairs|, 0, 0));
  }

  lemma {:induction false} PairsOfFlatten(pairs: seq<Pair>)
    ensures PairsOf(Flatten(pairs)) == pairs
  {
    if pairs != [] {
      PairsOfFlatten(pairs[1..]);
      assert Flatten(pairs)[2..] == Flatten(pairs[1..]);
    }
  }

  /** Trimming is idempotent, whatever mixture of turns it was given. */
  lemma BoundedHistoryIdempotent(turns: seq<Turn>)
    ensures BoundedHistory(BoundedHistory(turns)) == BoundedHistory(turns)
    ensures Paired(BoundedHistory(turns)) && |BoundedHistory(turns)| <= 2 * MAX_PAIRS
  {
    var kept := BoundedPairs(PairsOf(turns));
    PairsOfFlatten(kept);
    BoundedPairsIsLongestFit(PairsOf(turns), 0);
    BoundedPairsIsLongestFit(kept, 0);
    assert kept[0..] == kept;
  }

  lemma {:induction false} FlattenDrop(pairs: seq<Pair>, i: nat)
    requires i <= |pairs|
    ensures Flatten(pairs[i..]) == Flatten(pairs)[2 * i..]
  {
    if i > 0 {
      FlattenDrop(pairs[1..], i - 1);
      assert pairs[i..] == pairs[1..][i - 1..];
    }
  }

  /** On whole pairs, trimming keeps a suffix of the turns themselves. */
  lemma BoundedHistoryIsSuffix(turns: seq<Turn>)
    requires Paired(turns)
    ensures |BoundedHistory(turns)| <= |turns|
    ensures BoundedHistory(turns) == turns[|turns| - |BoundedHistory(turns)|..]
  {
    var pairs := PairsOf(turns);
    FlattenDrop(pairs, OldestKept(pairs, |pairs|, 0, 0));
  }

  lemma {:induction false} FlattenAppend(a: seq<Pair>, b: seq<Pair>)
    ensures Flatten(a + b) == Flatten(a) + Flatten(b)
  {
    if a == [] {
      assert a + b == b;
    } else {
      FlattenAppend(a[1..], b);
      assert (a + b)[1..] == a[1..] + b;
      assert PairTurns(a[0]) + (Flatten(a[1..]) + Flatten(b)) == (PairTurns(a[0]) + Flatten(a[1..])) + Flatten(b);
    }
  }

  /** Adding one pair to whole pairs gives whole pairs. */
  lemma PairedAppend(turns: seq<Turn>, question: Text, answer: Text)
    requires Paired(turns)
    ensures Paired(turns + PairTurns(Pair(question, answer)))
  {
    var pairs := PairsOf(turns);
    var last := [Pair(question, answer)];
    FlattenAppend(pairs, last);
    PairsOfFlatten(pairs + last);
    assert Flatten(last) == PairTurns(last[0]);
  }

  /** Every turn of the bounded context is a turn of the list it came from. */
  lemma {:induction false} PairsOfSource(turns: seq<Turn>, turn: Turn)
    requires turn in Flatten(PairsOf(turns))
    ensures turn in turns
  {
    if |turns| >= 2 {
      if turn in Flatten(PairsOf(turns[2..])) {
        PairsOfSource(turns[2..], turn);
      }
    }
  }

  lemma BoundedHistorySource(turns: seq<Turn>, turn: Turn)
    requires turn in BoundedHistory(turns)
    ensures turn in turns
  {
    var pairs := PairsOf(turns);
    FlattenDrop(pairs, OldestKept(pairs, |pairs|, 0, 0));
    PairsOfSource(turns, turn);
  }

  // ---------- The loops that trim ----------

  method CollectPairs(turns: seq<Turn>) returns (pairs: seq<Pair>)
    ensures pairs == PairsOf(turns)
  {
    pairs := [];
    var i := 0;
    while i + 1 < |turns|
      invariant 0 <= i <= |turns|
      invariant PairsOf(turns) == pairs + PairsOf(turns[i..])
    {
      assert turns[i..][2..] == turns[i + 2..];
      if turns[i].role == User && turns[i + 1].role == Assistant {
        pairs := pairs + [Pair(turns[i].content, turns[i + 1].content)];
      }
      i := i + 2;
    }
    assert PairsOf(turns[i..]) == [];
  }

  method KeepNewest(pairs: seq<Pair>) returns (kept: seq<Pair>)
    ensures kept == BoundedPairs(pairs)
  {
    kept := [];
    var size: nat, left: nat := 0, |pairs|;
    while left > 0 && |kept| < MAX_PAIRS
      invariant left <= |pairs| && kept == pairs[left..]
      invariant OldestKept(pairs, |pairs|, 0, 0) == OldestKept(pairs, left, |kept|, size)
    {
      var bytes := Cost(pairs[left - 1]);
      if bytes > MAX_CONTEXT_BYTES || size + bytes > MAX_CONTEXT_BYTES {
        return;
      }
      kept, size, left := [pairs[left - 1]] + kept, size + bytes, left - 1;
    }
  }

  method TrimToBudget(turns: seq<Turn>) returns (trimmed: seq<Turn>)
    ensures trimmed == BoundedHistory(turns)
  {
    var pairs := CollectPairs(turns);
    var kept := KeepNewest(pairs);
    trimmed := Flatten(kept);
  }
}
