/**
 * The temporal smoothing of the video main loop: a window of the label lists of the last five frames, and
 * the stable labels, those occurring at least twice across the window.
 */
module Smoother {

  /** `max_historial`. */
  const Capacity: nat := 5

  /** The label shown when no label recurs. */
  const NeutralText: string := "Neutral"

  /** `historial_emociones`, oldest frame first. */
  type Window = seq<seq<string>>

  /** The last `n` elements of `s`, or all of it when it is shorter. */
  function LastN<T>(s: seq<T>, n: nat): (t: seq<T>)
    ensures |t| <= n && |t| <= |s|
    ensures |s| <= n ==> t == s
  {
    if |s| <= n then s else s[|s| - n..]
  }

  /** One frame's labels appended, and the oldest list dropped once the window would exceed its capacity. */
  function Push(w: Window, labels: seq<string>): (w': Window)
    ensures |w| <= Capacity ==> w' == LastN(w + [labels], Capacity)
    ensures |w'| > 0 && w'[|w'| - 1] == labels
  {
    var appended := w + [labels];
    if |appended| > Capacity then appended[1..] else appended
  }

  /** The window after pushing each list in order. */
  function PushAll(w: Window, pushes: seq<seq<string>>): Window
    decreases |pushes|
  {
    if pushes == [] then w else PushAll(Push(w, pushes[0]), pushes[1..])
  }

  /** Keeping the last n, appending, and keeping the last n again is keeping the last n of the whole. */
  lemma LastNOfLastN<T>(a: seq<T>, b: seq<T>, n: nat)
    requires |a| <= n + 1
    ensures LastN(LastN(a, n) + b, n) == LastN(a + b, n)
  {
    if |a| > n {
      assert LastN(a, n) == a[1..];
      assert a + b == [a[0]] + (a[1..] + b);
    }
  }

  /** One push, unfolded: the first list goes in, then the rest follow. */
  lemma PushAllStep(w: Window, pushes: seq<seq<string>>)
    requires |w| <= Capacity && pushes != []
    ensures PushAll(w, pushes) == PushAll(LastN(w + [pushes[0]], Capacity), pushes[1..])
  {
  }

  /** Appending the first list and then the others is appending them all. */
  lemma AppendFirstThenRest(w: Window, pushes: seq<seq<string>>)
    requires pushes != []
    ensures (w + [pushes[0]]) + pushes[1..] == w + pushes
  {
  }

  /** Starting from any window within capacity, the window holds the last five lists pushed, oldest first. */
  lemma {:induction false} WindowIsSuffix(w: Window, pushes: seq<seq<string>>)
    requires |w| <= Capacity
    ensures PushAll(w, pushes) == LastN(w + pushes, Capacity)
    decreases |pushes|
  {
    if pushes != [] {
      var appended := w + [pushes[0]];
      var next := LastN(appended, Capacity);
      PushAllStep(w, pushes);
      WindowIsSuffix(next, pushes[1..]);
      LastNOfLastN(appended, pushes[1..], Capacity);
      AppendFirstThenRest(w, pushes);
    }
  }

  /** After n pushes to an empty window it holds exactly the last min(n, 5) of them, in push order. */
  lemma WindowHoldsLastPushes(pushes: seq<seq<string>>)
    ensures PushAll([], pushes) == LastN(pushes, Capacity)
    ensures |PushAll([], pushes)| == if |pushes| < Capacity then |pushes| else Capacity
  {
    WindowIsSuffix([], pushes);
    assert [] + pushes == pushes;
  }

  /** `todas_emociones`: every label of every frame in the window, in order. */
  function Flatten(w: Window): seq<string>
  {
    if w == [] then [] else w[0] + Flatten(w[1..])
  }

  /** `emociones_frecuentes` as a set: labels occurring at least twice, or just "Neutral" when none does. */
  function Stable(w: Window): (s: set<string>)
    ensures s != {}
    ensures (exists x :: x in Flatten(w) && multiset(Flatten(w))[x] >= 2) ==>
      forall x :: x in s <==> multiset(Flatten(w))[x] >= 2
    ensures (forall x :: x in Flatten(w) ==> multiset(Flatten(w))[x] < 2) ==> s == {NeutralText}
  {
    var all := Flatten(w);
    var frequent := set x | x in all && multiset(all)[x] >= 2;
    assert forall x :: multiset(all)[x] >= 2 ==> x in frequent;
    if frequent == {} then {NeutralText} else frequent
  }

  /** A label in the k-th frame occurs at least once in the flattened window. */
  lemma {:induction false} FrameLabelCounted(w: Window, k: nat, x: string)
    requires k < |w| && x in w[k]
    ensures multiset(Flatten(w))[x] >= 1
    decreases |w|
  {
    if k > 0 {
      FrameLabelCounted(w[1..], k - 1, x);
    }
  }

  /** A label present in two different frames occurs at least twice in the flattened window. */
  lemma {:induction false} TwoFramesCountTwice(w: Window, i: nat, j: nat, x: string)
    requires i < j < |w| && x in w[i] && x in w[j]
    ensures multiset(Flatten(w))[x] >= 2
    decreases |w|
  {
    if i == 0 {
      FrameLabelCounted(w[1..], j - 1, x);
    } else {
      TwoFramesCountTwice(w[1..], i - 1, j - 1, x);
    }
  }

  /** A label present in two different frames of the window is stable. */
  lemma RecurringLabelIsStable(w: Window, i: nat, j: nat, x: string)
    requires i < j < |w| && x in w[i] && x in w[j]
    ensures x in Stable(w)
  {
    TwoFramesCountTwice(w, i, j, x);
  }

  /** A list without repetitions holds each label at most once. */
  lemma {:induction false} DistinctCountsOnce(s: seq<string>, x: string)
    requires forall a, b :: 0 <= a < b < |s| ==> s[a] != s[b]
    ensures multiset(s)[x] <= 1
    decreases |s|
  {
    if s != [] {
      assert s == [s[0]] + s[1..];
      DistinctCountsOnce(s[1..], x);
      if s[0] == x {
        assert x !in s[1..];
      }
    }
  }

  /** A label occurring in the flattened window is in some frame. */
  lemma {:induction false} CountedLabelInFrame(w: Window, x: string)
    requires multiset(Flatten(w))[x] >= 1
    ensures exists k :: 0 <= k < |w| && x in w[k]
    decreases |w|
  {
    if x !in w[0] {
      CountedLabelInFrame(w[1..], x);
      var k :| 0 <= k < |w[1..]| && x in w[1..][k];
      assert x in w[k + 1];
    }
  }

  /**
   * When no frame repeats a label, as the detector guarantees, a label is stable exactly when it is in two
   * different frames (unless the window fell back to "Neutral").
   */
  lemma {:induction false} StableLabelRecurs(w: Window, x: string)
    requires forall k :: 0 <= k < |w| ==> forall a, b :: 0 <= a < b < |w[k]| ==> w[k][a] != w[k][b]
    requires multiset(Flatten(w))[x] >= 2
    ensures exists i, j :: 0 <= i < j < |w| && x in w[i] && x in w[j]
    decreases |w|
  {
    DistinctCountsOnce(w[0], x);
    if x in w[0] {
      CountedLabelInFrame(w[1..], x);
      var k :| 0 <= k < |w[1..]| && x in w[1..][k];
      assert x in w[0] && x in w[k + 1];
    } else {
      StableLabelRecurs(w[1..], x);
      var i, j :| 0 <= i < j < |w[1..]| && x in w[1..][i] && x in w[1..][j];
      assert x in w[i + 1] && x in w[j + 1];
    }
  }

  /** A window of one-label frames flattens to those labels in order. */
  lemma {:induction false} FlattenSingletons(w: Window)
    requires forall k :: 0 <= k < |w| ==> |w[k]| == 1
    ensures |Flatten(w)| == |w|
    ensures forall k :: 0 <= k < |w| ==> Flatten(w)[k] == w[k][0]
    decreases |w|
  {
    if w != [] {
      FlattenSingletons(w[1..]);
    }
  }

  /** The stable set is exactly the labels occurring at least twice, when there are any. */
  lemma StableIsRecurring(w: Window, all: seq<string>, recurring: set<string>)
    requires Flatten(w) == all && recurring != {}
    requires forall x :: multiset(all)[x] >= 2 <==> x in recurring
    ensures Stable(w) == recurring
  {
    var x :| x in recurring;
    assert x in all;
  }

  /** The stable set is "Neutral" alone when every label occurs at most once. */
  lemma StableIsNeutral(w: Window, all: seq<string>)
    requires Flatten(w) == all
    requires forall x :: x in all ==> multiset(all)[x] < 2
    ensures Stable(w) == {NeutralText}
  {
  }

  /** Pushing {"A"} three times and {"B"} twice makes both stable. */
  lemma RepeatedLabelsScenario()
    ensures Stable(PushAll([], [["A"], ["A"], ["A"], ["B"], ["B"]])) == {"A", "B"}
  {
    var pushes := [["A"], ["A"], ["A"], ["B"], ["B"]];
    var all := ["A", "A", "A", "B", "B"];
    WindowHoldsLastPushes(pushes);
    assert PushAll([], pushes) == pushes;
    FlattenSingletons(pushes);
    assert Flatten(pushes) == all;
    RepeatedCounts();
    StableIsRecurring(pushes, all, {"A", "B"});
  }

  /** The occurrence counts behind the scenario above. */
  lemma RepeatedCounts()
    ensures forall x :: multiset(["A", "A", "A", "B", "B"])[x] >= 2 <==> x in {"A", "B"}
  {
    var m := multiset(["A", "A", "A", "B", "B"]);
    assert m == multiset{"A", "A", "A", "B", "B"};
  }

  /** Pushing five different singletons leaves nothing recurring, so the window falls back to "Neutral". */
  lemma SingleOccurrencesScenario()
    ensures Stable(PushAll([], [["A"], ["B"], ["C"], ["D"], ["E"]])) == {NeutralText}
  {
    var pushes := [["A"], ["B"], ["C"], ["D"], ["E"]];
    var all := ["A", "B", "C", "D", "E"];
    WindowHoldsLastPushes(pushes);
    assert PushAll([], pushes) == pushes;
    FlattenSingletons(pushes);
    assert Flatten(pushes) == all;
    SingleCounts();
    StableIsNeutral(pushes, all);
  }

  /** The occurrence counts behind the scenario above. */
  lemma SingleCounts()
    ensures forall x :: x in ["A", "B", "C", "D", "E"] ==> multiset(["A", "B", "C", "D", "E"])[x] < 2
  {
    var m := multiset(["A", "B", "C", "D", "E"]);
    assert m == multiset{"A", "B", "C", "D", "E"};
  }
}
