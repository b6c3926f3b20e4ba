/** Which browser images a prune removes. Images are listed as the runtime lists them; nothing
    here depends on what order that is. */
module Images {
  datatype Image = Image(name: string, id: string, size: int)

  datatype KeepRule = KeepRule(count: int, referenced: bool)

  // What planning knows besides the list: the image in service, the pinned one, which names are
  // refresh tags, and how many stored scans name each image.
  datatype Planner = Planner(rule: KeepRule, serviceName: string, serviceId: string, pinned: string,
                             isRefreshTag: string -> bool, scans: map<string, nat>)

  datatype ImageState = InService | Pinned | Kept | Referenced | Prunable

  // ---------- the rule, image by image ----------

  predicate Refreshed(b: Planner, img: Image) { b.isRefreshTag(img.name) }

  function Scans(b: Planner, img: Image): nat { if img.id in b.scans then b.scans[img.id] else 0 }

  predicate Serves(b: Planner, img: Image) {
    img.name == b.serviceName || (img.id != "" && img.id == b.serviceId)
  }

  // What a prune may consider removing at all.
  predicate Candidate(b: Planner, img: Image) { Refreshed(b, img) && !Serves(b, img) && img.name != b.pinned }

  // newest says that no refresh image came before this one; kept counts towards the count rule.
  function StateOf(b: Planner, img: Image, newest: bool, kept: nat): ImageState {
    if Serves(b, img) then InService
    else if img.name == b.pinned then Pinned
    else if !Refreshed(b, img) then Kept
    else if b.rule.referenced && Scans(b, img) > 0 then Referenced
    else if newest || (!b.rule.referenced && kept < b.rule.count) then Kept
    else Prunable
  }

  // What uses up a place under the count rule.
  predicate CountsAsKept(b: Planner, img: Image, state: ImageState) {
    state == InService || (state == Kept && Refreshed(b, img) && !b.rule.referenced)
  }

  method DecideState(b: Planner, img: Image, scans: nat, refreshed: bool, newest: bool, kept: nat)
    returns (state: ImageState, kept': nat)
    requires scans == Scans(b, img) && refreshed == Refreshed(b, img)
    ensures state == StateOf(b, img, newest, kept)
    ensures kept' == if CountsAsKept(b, img, state) then kept + 1 else kept
  {
    kept' := kept;
    var inService := img.name == b.serviceName || (img.id != "" && img.id == b.serviceId);
    if inService {
      kept' := kept + 1;
      state := InService;
    } else if img.name == b.pinned {
      state := Pinned;
    } else if !refreshed {
      // Not the refresh's to remove.
      state := Kept;
    } else if b.rule.referenced && scans > 0 {
      state := Referenced;
    } else if b.rule.referenced {
      state := if newest then Kept else Prunable;
    } else if kept < b.rule.count || newest {
      kept' := kept + 1;
      state := Kept;
    } else {
      state := Prunable;
    }
  }

  // ---------- the plan ----------

  predicate NoRefreshIn(b: Planner, images: seq<Image>) {
    forall i :: 0 <= i < |images| ==> !Refreshed(b, images[i])
  }

  // The states of the images, and how many the count rule counts as kept.
  function States(b: Planner, images: seq<Image>): (states: seq<ImageState>)
    ensures |states| == |images|
  {
    if images == [] then [] else
    var before, last := images[..|images| - 1], images[|images| - 1];
    States(b, before) + [StateOf(b, last, NoRefreshIn(b, before), KeptIn(b, before, States(b, before)))]
  }

  function KeptIn(b: Planner, images: seq<Image>, states: seq<ImageState>): nat
    requires |images| == |states|
  {
    if images == [] then 0 else
    var n := |images| - 1;
    KeptIn(b, images[..n], states[..n]) + if CountsAsKept(b, images[n], states[n]) then 1 else 0
  }

  lemma StatesOfMore(b: Planner, images: seq<Image>, img: Image)
    ensures States(b, images + [img])
            == States(b, images) + [StateOf(b, img, NoRefreshIn(b, images), KeptIn(b, images, States(b, images)))]
  {
    assert (images + [img])[..|images|] == images;
  }

  lemma KeptInMore(b: Planner, images: seq<Image>, states: seq<ImageState>, img: Image, state: ImageState)
    requires |images| == |states|
    ensures KeptIn(b, images + [img], states + [state])
            == KeptIn(b, images, states) + if CountsAsKept(b, img, state) then 1 else 0
  {
    assert (images + [img])[..|images|] == images && (states + [state])[..|states|] == states;
  }

  // What one more image adds to the plan.
  lemma PlanMore(b: Planner, images: seq<Image>, i: nat, state: ImageState, kept: nat)
    requires i < |images| && kept == KeptIn(b, images[..i], States(b, images[..i]))
    requires state == StateOf(b, images[i], NoRefreshIn(b, images[..i]), kept)
    ensures States(b, images[..i + 1]) == States(b, images[..i]) + [state]
    ensures KeptIn(b, images[..i + 1], States(b, images[..i + 1]))
            == if CountsAsKept(b, images[i], state) then kept + 1 else kept
    ensures NoRefreshIn(b, images[..i + 1]) == (NoRefreshIn(b, images[..i]) && !Refreshed(b, images[i]))
  {
    assert images[..i + 1] == images[..i] + [images[i]];
    StatesOfMore(b, images[..i], images[i]);
    KeptInMore(b, images[..i], States(b, images[..i]), images[i], state);
    assert forall k :: 0 <= k < i ==> images[..i + 1][k] == images[..i][k];
  }

  method PlanImages(images: seq<Image>, b: Planner) returns (states: seq<ImageState>)
    ensures states == States(b, images)
  {
    states := [];
    var kept: nat, newest := 0, true;
    for i := 0 to |images|
      invariant states == States(b, images[..i])
      invariant kept == KeptIn(b, images[..i], states) && newest == NoRefreshIn(b, images[..i])
    {
      var img := images[i];
      var refreshed := b.isRefreshTag(img.name);
      var scans := if img.id in b.scans then b.scans[img.id] else 0;
      var state, kept' := DecideState(b, img, scans, refreshed, newest, kept);
      PlanMore(b, images, i, state, kept);
      kept := kept';
      if refreshed {
        newest := false;
      }
      states := states + [state];
    }
    assert images[..|images|] == images;
  }

  // ---------- the state of one image in the plan ----------

  lemma {:induction false} StateAt(b: Planner, images: seq<Image>, i: nat)
    requires i < |images|
    ensures States(b, images[..i]) == States(b, images)[..i]
    ensures States(b, images)[i]
            == StateOf(b, images[i], NoRefreshIn(b, images[..i]), KeptIn(b, images[..i], States(b, images)[..i]))
    decreases |images|
  {
    var before := images[..|images| - 1];
    if i < |before| {
      StateAt(b, before, i);
      assert before[..i] == images[..i] && before[i] == images[i];
      assert States(b, images)[..i] == States(b, before)[..i];
    } else {
      assert before == images[..i] && States(b, images)[..i] == States(b, before);
    }
  }

  /** An image is prunable exactly when a refresh made it, it is neither in service nor pinned,
      another refresh image is listed before it, and no rule keeps it: under the referenced rule
      no stored scan names it, under the count rule at least the count of images listed before
      it are counted as kept. */
  lemma PrunableExactly(b: Planner, images: seq<Image>, i: nat)
    requires i < |images|
    ensures States(b, images)[i] == Prunable <==>
            && Candidate(b, images[i])
            && (exists j :: 0 <= j < i && Refreshed(b, images[j]))
            && if b.rule.referenced then Scans(b, images[i]) == 0
               else KeptIn(b, images[..i], States(b, images)[..i]) >= b.rule.count
  {
    StateAt(b, images, i);
    if j :| 0 <= j < i && Refreshed(b, images[j]) {
      assert images[..i][j] == images[j];
    }
  }

  // ---------- monotone ----------

  // The same planner under a rule that keeps at least as much.
  ghost predicate KeepsMore(b: Planner, b': Planner) {
    && b' == b.(rule := b'.rule, scans := b'.scans)
    && b'.rule.referenced == b.rule.referenced && b'.rule.count >= b.rule.count
    && forall id :: id in b.scans && b.scans[id] > 0 ==> id in b'.scans && b'.scans[id] > 0
  }

  // Below the smaller count the two rules have counted the same images.
  lemma {:induction false} CountsTogether(b: Planner, b': Planner, images: seq<Image>)
    requires KeepsMore(b, b') && !b.rule.referenced
    ensures var k, k' := KeptIn(b, images, States(b, images)), KeptIn(b', images, States(b', images));
            k <= k' && (k < b.rule.count ==> k == k')
  {
    if images != [] {
      var before, img := images[..|images| - 1], images[|images| - 1];
      CountsTogether(b, b', before);
      CountsTogetherNext(b, b', before, img);
      assert images == before + [img];
    }
  }

  lemma CountsTogetherNext(b: Planner, b': Planner, before: seq<Image>, img: Image)
    requires KeepsMore(b, b') && !b.rule.referenced
    requires var k, k' := KeptIn(b, before, States(b, before)), KeptIn(b', before, States(b', before));
             k <= k' && (k < b.rule.count ==> k == k')
    ensures var images := before + [img];
            var k, k' := KeptIn(b, images, States(b, images)), KeptIn(b', images, States(b', images));
            k <= k' && (k < b.rule.count ==> k == k')
  {
    CountedNext(b, before, img);
    CountedNext(b', before, img);
    assert NoRefreshIn(b, before) == NoRefreshIn(b', before);
  }

  lemma CountedNext(b: Planner, before: seq<Image>, img: Image)
    ensures var kept := KeptIn(b, before, States(b, before));
            var state := StateOf(b, img, NoRefreshIn(b, before), kept);
            KeptIn(b, before + [img], States(b, before + [img])) == kept + if CountsAsKept(b, img, state) then 1 else 0
  {
    StatesOfMore(b, before, img);
    KeptInMore(b, before, States(b, before), img, States(b, before + [img])[|before|]);
  }

  /** Raising the count or adding references only shrinks the prunable set. */
  lemma PrunesLess(b: Planner, b': Planner, images: seq<Image>, i: nat)
    requires KeepsMore(b, b') && i < |images|
    ensures States(b', images)[i] == Prunable ==> States(b, images)[i] == Prunable
  {
    StateAt(b, images, i);
    StateAt(b', images, i);
    assert NoRefreshIn(b, images[..i]) == NoRefreshIn(b', images[..i]);
    if !b.rule.referenced {
      CountsTogether(b, b', images[..i]);
    }
  }

  // ---------- a fixpoint ----------

  // The images, and the states, of those that stay.
  function Staying<T>(items: seq<T>, gone: seq<bool>): seq<T>
    requires |items| == |gone|
  {
    if items == [] then [] else
    var n := |items| - 1;
    Staying(items[..n], gone[..n]) + if gone[n] then [] else [items[n]]
  }

  ghost predicate OnlyPrunable(states: seq<ImageState>, gone: seq<bool>) {
    |states| == |gone| && forall i :: 0 <= i < |gone| && gone[i] ==> states[i] == Prunable
  }

  lemma NoRefreshMore(b: Planner, images: seq<Image>, img: Image)
    ensures NoRefreshIn(b, images + [img]) == (NoRefreshIn(b, images) && !Refreshed(b, img))
  {
    assert forall k :: 0 <= k < |images| ==> (images + [img])[k] == images[k];
    assert (images + [img])[|images|] == img;
  }

  // Only a refresh image listed after another one is ever prunable.
  lemma {:induction false} StayingRefresh(b: Planner, images: seq<Image>, gone: seq<bool>)
    requires OnlyPrunable(States(b, images), gone)
    ensures NoRefreshIn(b, Staying(images, gone)) == NoRefreshIn(b, images)
  {
    if images != [] {
      var n := |images| - 1;
      var before, img := images[..n], images[n];
      assert images == before + [img];
      StatesOfMore(b, before, img);
      StayingRefresh(b, before, gone[..n]);
      assert gone == gone[..n] + [gone[n]];
      StayingSnoc(before, img, gone[..n], gone[n]);
      assert gone[n] ==> Staying(images, gone) == Staying(before, gone[..n]);
      NoRefreshMore(b, before, img);
      NoRefreshMore(b, Staying(before, gone[..n]), img);
    }
  }

  // One more image has the same state after before as after rest, and counts the same.
  lemma SameStateNext(b: Planner, before: seq<Image>, rest: seq<Image>, img: Image)
    requires NoRefreshIn(b, rest) == NoRefreshIn(b, before)
    requires KeptIn(b, rest, States(b, rest)) == KeptIn(b, before, States(b, before))
    ensures States(b, rest + [img]) == States(b, rest) + [States(b, before + [img])[|before|]]
    ensures KeptIn(b, rest + [img], States(b, rest + [img])) == KeptIn(b, before + [img], States(b, before + [img]))
    ensures States(b, before + [img])[|before|] == Prunable ==>
              KeptIn(b, before + [img], States(b, before + [img])) == KeptIn(b, before, States(b, before))
  {
    StatesOfMore(b, before, img);
    StatesOfMore(b, rest, img);
    var state := States(b, before + [img])[|before|];
    KeptInMore(b, before, States(b, before), img, state);
    KeptInMore(b, rest, States(b, rest), img, state);
  }

  lemma StayingSnoc<T>(items: seq<T>, item: T, gone: seq<bool>, g: bool)
    requires |items| == |gone|
    ensures Staying(items + [item], gone + [g]) == Staying(items, gone) + if g then [] else [item]
  {
    assert (items + [item])[..|items|] == items && (gone + [g])[..|gone|] == gone;
  }

  ghost predicate Unchanged(b: Planner, images: seq<Image>, gone: seq<bool>)
    requires |images| == |gone|
  {
    && States(b, Staying(images, gone)) == Staying(States(b, images), gone)
    && KeptIn(b, Staying(images, gone), States(b, Staying(images, gone))) == KeptIn(b, images, States(b, images))
  }

  lemma UnchangedNext(b: Planner, before: seq<Image>, img: Image, gone: seq<bool>, g: bool)
    requires OnlyPrunable(States(b, before), gone) && Unchanged(b, before, gone)
    requires g ==> States(b, before + [img])[|before|] == Prunable
    ensures Unchanged(b, before + [img], gone + [g])
  {
    var state := States(b, before + [img])[|before|];
    StatesOfMore(b, before, img);
    StayingSnoc(before, img, gone, g);
    assert Staying(States(b, before + [img]), gone + [g])
           == Staying(States(b, before), gone) + if g then [] else [state] by {
      StayingSnoc(States(b, before), state, gone, g);
    }
    StayingRefresh(b, before, gone);
    SameStateNext(b, before, Staying(before, gone), img);
    if g {
      assert Staying(before + [img], gone + [g]) == Staying(before, gone);
      assert Staying(States(b, before + [img]), gone + [g]) == Staying(States(b, before), gone);
    }
  }

  /** Planning again after removing prunable images - all of them, or those the runtime did not
      refuse to remove - changes no state: no survivor becomes prunable, and no removal is undone
      by another. */
  lemma {:induction false} RemovingChangesNothing(b: Planner, images: seq<Image>, gone: seq<bool>)
    requires OnlyPrunable(States(b, images), gone)
    ensures Unchanged(b, images, gone)
  {
    if images != [] {
      var n := |images| - 1;
      var before, img, goneBefore, g := images[..n], images[n], gone[..n], gone[n];
      assert images == before + [img] && gone == goneBefore + [g];
      StatesOfMore(b, before, img);
      RemovingChangesNothing(b, before, goneBefore);
      UnchangedNext(b, before, img, goneBefore, g);
    }
  }

  lemma {:induction false} NoneStaysPrunable(states: seq<ImageState>, gone: seq<bool>)
    requires |states| == |gone| && forall i :: 0 <= i < |gone| ==> gone[i] == (states[i] == Prunable)
    ensures Prunable !in Staying(states, gone)
  {
    if states != [] {
      NoneStaysPrunable(states[..|states| - 1], gone[..|states| - 1]);
    }
  }

  /** The plan is a fixpoint: planning again after removing what was prunable removes nothing. */
  lemma PruningTwice(b: Planner, images: seq<Image>, gone: seq<bool>)
    requires |gone| == |images| && forall i :: 0 <= i < |gone| ==> gone[i] == (States(b, images)[i] == Prunable)
    ensures Prunable !in States(b, Staying(images, gone))
  {
    RemovingChangesNothing(b, images, gone);
    NoneStaysPrunable(States(b, images), gone);
  }

  // ---------- plan and prune ----------

  datatype Row = Row(image: Image, state: ImageState)

  // The plan of a store that could not say which images its scans use.
  method Plan(images: seq<Image>, b: Planner, referencesKnown: bool) returns (rows: seq<Row>, ok: bool)
    ensures |rows| == |images| && ok == (referencesKnown || !b.rule.referenced)
    ensures forall i :: 0 <= i < |rows| ==> rows[i].image == images[i]
    ensures ok ==> forall i :: 0 <= i < |rows| ==> rows[i].state == States(b, images)[i]
    ensures !ok ==> forall i :: 0 <= i < |rows| ==>
              rows[i].state == if States(b, images)[i] == Prunable then Kept else States(b, images)[i]
  {
    var states := PlanImages(images, b);
    ok := referencesKnown || !b.rule.referenced;
    rows := [];
    for i := 0 to |images|
      invariant |rows| == i && forall j :: 0 <= j < i ==> rows[j] == Row(images[j], states[j])
    {
      rows := rows + [Row(images[i], states[i])];
    }
    if !referencesKnown && b.rule.referenced {
      for i := 0 to |rows|
        invariant |rows| == |images|
        invariant forall j :: i <= j < |rows| ==> rows[j] == Row(images[j], states[j])
        invariant forall j :: 0 <= j < i ==>
                    rows[j] == Row(images[j], if states[j] == Prunable then Kept else states[j])
      {
        if rows[i].state == Prunable {
          rows := rows[i := rows[i].(state := Kept)];
        }
      }
    }
  }

  datatype PruneStats = PruneStats(removed: seq<Row>, kept: seq<Row>, failed: nat, bytesFreed: int)

  function Freed(rows: seq<Row>): int {
    if rows == [] then 0 else
    Freed(rows[..|rows| - 1]) + if rows[|rows| - 1].image.size > 0 then rows[|rows| - 1].image.size else 0
  }

  // The rows a prune removes: the prunable ones whose removal the runtime does not refuse.
  predicate Goes(row: Row, refused: bool) { row.state == Prunable && !refused }

  function GoneOf(plan: seq<Row>, refused: seq<bool>): seq<bool>
    requires |plan| == |refused|
  {
    if plan == [] then [] else
    var n := |plan| - 1;
    GoneOf(plan[..n], refused[..n]) + [Goes(plan[n], refused[n])]
  }

  lemma {:induction false} GoneAt(plan: seq<Row>, refused: seq<bool>)
    requires |plan| == |refused|
    ensures |GoneOf(plan, refused)| == |plan|
    ensures forall i :: 0 <= i < |plan| ==> GoneOf(plan, refused)[i] == Goes(plan[i], refused[i])
  {
    if plan != [] {
      GoneAt(plan[..|plan| - 1], refused[..|plan| - 1]);
    }
  }

  function Not(flags: seq<bool>): seq<bool> { seq(|flags|, i requires 0 <= i < |flags| => !flags[i]) }

  /** Removes every prunable image the runtime lets go of; the rest go on. What was removed and
      what was kept are the plan, each in its order, and the refusals are the prunable ones kept. */
  method Prune(plan: seq<Row>, refused: seq<bool>) returns (stats: PruneStats)
    requires |refused| == |plan|
    ensures |GoneOf(plan, refused)| == |plan|
    ensures stats.kept == Staying(plan, GoneOf(plan, refused))
    ensures stats.removed == Staying(plan, Not(GoneOf(plan, refused)))
    ensures stats.bytesFreed == Freed(stats.removed)
    ensures stats.failed + |stats.removed| == |Staying(plan, Not(PrunableRows(plan)))|
  {
    GoneAt(plan, refused);
    stats := PruneStats([], [], 0, 0);
    for i := 0 to |plan|
      invariant PrunedTo(plan, refused, i, stats)
    {
      ghost var before := stats;
      var img := plan[i];
      if img.state != Prunable {
        stats := stats.(kept := stats.kept + [img]);
      } else if refused[i] {
        stats := stats.(failed := stats.failed + 1, kept := stats.kept + [img]);
      } else {
        stats := stats.(removed := stats.removed + [img],
                        bytesFreed := stats.bytesFreed + if img.image.size > 0 then img.image.size else 0);
      }
      PrunedMore(plan, refused, i, before, stats);
    }
    assert plan[..|plan|] == plan && refused[..|plan|] == refused;
  }

  // The statistics once the first n images were tried.
  ghost predicate PrunedTo(plan: seq<Row>, refused: seq<bool>, n: nat, stats: PruneStats)
    requires n <= |plan| == |refused|
  {
    var gone, prunable := GoneOf(plan[..n], refused[..n]), PrunableRows(plan[..n]);
    && |gone| == |prunable| == n
    && stats.kept == Staying(plan[..n], gone) && stats.removed == Staying(plan[..n], Not(gone))
    && stats.bytesFreed == Freed(stats.removed)
    && stats.failed + |stats.removed| == |Staying(plan[..n], Not(prunable))|
  }

  lemma FreedMore(rows: seq<Row>, row: Row)
    ensures Freed(rows + [row]) == Freed(rows) + if row.image.size > 0 then row.image.size else 0
  {
    assert (rows + [row])[..|rows|] == rows;
  }

  lemma PrunedMore(plan: seq<Row>, refused: seq<bool>, i: nat, stats: PruneStats, stats': PruneStats)
    requires i < |plan| == |refused| && PrunedTo(plan, refused, i, stats)
    requires var img := plan[i];
             stats' == if img.state != Prunable then stats.(kept := stats.kept + [img])
                       else if refused[i] then stats.(failed := stats.failed + 1, kept := stats.kept + [img])
                       else stats.(removed := stats.removed + [img],
                                   bytesFreed := stats.bytesFreed + if img.image.size > 0 then img.image.size else 0)
    ensures PrunedTo(plan, refused, i + 1, stats')
  {
    hide Staying, Not, GoneOf, Freed;
    StayingMore(plan, refused, i);
    FreedMore(stats.removed, plan[i]);
  }

  function PrunableRows(plan: seq<Row>): seq<bool> {
    seq(|plan|, i requires 0 <= i < |plan| => plan[i].state == Prunable)
  }

  lemma StayingMore(plan: seq<Row>, refused: seq<bool>, i: nat)
    requires i < |plan| == |refused|
    requires |GoneOf(plan[..i], refused[..i])| == i
    ensures var gone := GoneOf(plan[..i], refused[..i]);
            var gone' := GoneOf(plan[..i + 1], refused[..i + 1]);
            && |gone'| == i + 1
            && Staying(plan[..i + 1], gone') == Staying(plan[..i], gone) + (if gone'[i] then [] else [plan[i]])
            && Staying(plan[..i + 1], Not(gone'))
               == Staying(plan[..i], Not(gone)) + (if gone'[i] then [plan[i]] else [])
            && gone'[i] == Goes(plan[i], refused[i])
    ensures Staying(plan[..i + 1], Not(PrunableRows(plan[..i + 1])))
            == Staying(plan[..i], Not(PrunableRows(plan[..i]))) + if plan[i].state == Prunable then [plan[i]] else []
  {
    var gone' := GoneOf(plan[..i + 1], refused[..i + 1]);
    assert plan[..i + 1][..i] == plan[..i] && refused[..i + 1][..i] == refused[..i];
    assert gone'[..i] == GoneOf(plan[..i], refused[..i]);
    assert Not(gone')[..i] == Not(gone'[..i]);
    assert Not(PrunableRows(plan[..i + 1]))[..i] == Not(PrunableRows(plan[..i]));
  }
}
