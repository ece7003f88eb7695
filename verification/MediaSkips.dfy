/** Which planned media ends with a product action: the media of its items that no product of the plan was attributed to. */
module MediaSkips {
  import opened Common
  import opened Publication
  import opened Tables
  import opened Transactions
  import opened Slots
  import opened Folds
  import opened Invariant
  import opened Preservation
  import opened Journal
  import Evidence

  /** Planned media of the plan for the item of some member of `act`. */
  ghost predicate WaitsFor(media: Action, act: Action) {
    && media.kind.UploadMedia? && media.state.Planned? && media.plan == act.plan && |media.members| == 1
    && exists i :: 0 <= i < |act.members| && act.members[i].itemTarget == media.members[0].itemTarget
  }

  /** A product of the plan, of this seller, was attributed to the item, vendor code and group of the media. */
  ghost predicate HasProduct(db: Tables, media: Action, seller: string)
    requires |media.members| == 1
  {
    exists c, j :: c in db.actions && 0 <= j < |db.actions[c].members| && IsProductOf(db.actions[c], j, media, seller)
  }

  predicate IsProductOf(product: Action, j: nat, media: Action, seller: string)
    requires |media.members| == 1 && j < |product.members|
  {
    var (m, p) := (media.members[0], product.members[j]);
    && (product.kind.CreateGroup? || product.kind.AddToGroup?) && product.plan == media.plan && product.seller == seller
    && p.attributed && p.itemTarget == m.itemTarget && p.vendor == m.vendor && p.groupTarget == m.groupTarget
  }

  /** The media ended as skipped for want of a product; a member that had no result now says so. */
  predicate EndedSkipped(x: Action, y: Action) {
    && y.state.Terminal? && y.outcome == Some(Skipped) && y.revision == x.revision + 1
    && y.attempt == x.attempt && y.retry == x.retry && y.plan == x.plan && y.kind == x.kind && y.seller == x.seller
    && |y.members| == |x.members|
    && forall i :: 0 <= i < |x.members| ==>
         y.members[i] == if x.members[i].outcome.None? then x.members[i].(outcome := Some(Outcome(Skipped, AttributionUnavailable, 0)))
                         else x.members[i]
  }

  /** What becomes of each media row when product action `a` ends; `next` are the tables afterwards. */
  ghost predicate MediaSettled(db: Tables, next: Tables, a: int)
    requires a in db.actions
  {
    forall b :: b in db.actions && db.actions[b].kind.UploadMedia? ==>
      && b in next.actions
      && var (x, y) := (db.actions[b], next.actions[b]);
         if WaitsFor(x, db.actions[a]) && !HasProduct(next, x, db.actions[a].seller) then EndedSkipped(x, y) else y == x
  }

  /** Ending the action leaves every product row's attributions alone. */
  lemma CloseKeepsProducts(db: Tables, a: int, cls: ResultClass, media: Action, seller: string)
    requires a in db.actions && IsProduct(db.actions[a].kind) && |media.members| == 1
    ensures HasProduct(Close(db, a, cls), media, seller) <==> HasProduct(db, media, seller)
  {
    var next := Close(db, a, cls);
    assert next.actions.Keys == db.actions.Keys;
    forall c | c in db.actions
      ensures |next.actions[c].members| == |db.actions[c].members|
      ensures forall j :: 0 <= j < |db.actions[c].members| ==>
                (IsProductOf(next.actions[c], j, media, seller) <==> IsProductOf(db.actions[c], j, media, seller))
    {
    }
  }

  lemma HopelessIff(db: Tables, act: Action, media: Action)
    ensures Hopeless(db, act.plan, act.seller, act.members, media) <==>
            WaitsFor(media, act) && !HasProduct(db, media, act.seller)
  {
    if |media.members| == 1 {
      forall c, j | c in db.actions && 0 <= j < |db.actions[c].members|
        ensures IsProductOf(db.actions[c], j, media, act.seller) <==>
                AttributedBy(db.actions[c], j, media.plan, act.seller, media.members[0])
      {
      }
    }
  }

  /** Closing a product action settles the media of its items as stated. */
  lemma CloseSettlesMedia(db: Tables, a: int, cls: ResultClass)
    requires a in db.actions && IsProduct(db.actions[a].kind)
    ensures MediaSettled(db, Close(db, a, cls), a)
  {
    var next := Close(db, a, cls);
    forall b | b in db.actions && db.actions[b].kind.UploadMedia?
      ensures b in next.actions
      ensures var (x, y) := (db.actions[b], next.actions[b]);
              if WaitsFor(x, db.actions[a]) && !HasProduct(next, x, db.actions[a].seller) then EndedSkipped(x, y) else y == x
    {
      HopelessIff(db, db.actions[a], db.actions[b]);
      if |db.actions[b].members| == 1 {
        CloseKeepsProducts(db, a, cls, db.actions[b], db.actions[a].seller);
      }
    }
  }

  /** Storing results in members of `a` changes no media row and nothing that media waits for. */
  lemma SettledAlike(db: Tables, mid: Tables, next: Tables, a: int)
    requires a in db.actions && a in mid.actions && IsProduct(db.actions[a].kind)
    requires mid.actions == db.actions[a := mid.actions[a]] && mid.actions[a].plan == db.actions[a].plan &&
             mid.actions[a].seller == db.actions[a].seller && SameRows(db.actions[a].members, mid.actions[a].members)
    requires MediaSettled(mid, next, a)
    ensures MediaSettled(db, next, a)
  {
    forall b | b in db.actions && db.actions[b].kind.UploadMedia?
      ensures b in next.actions
      ensures var (x, y) := (db.actions[b], next.actions[b]);
              if WaitsFor(x, db.actions[a]) && !HasProduct(next, x, db.actions[a].seller) then EndedSkipped(x, y) else y == x
    {
      assert mid.actions[b] == db.actions[b];
      assert WaitsFor(db.actions[b], db.actions[a]) <==> WaitsFor(mid.actions[b], mid.actions[a]);
    }
  }

  lemma RejectSettlesMedia(db: Tables, a: int, s: Submission, now: int)
    requires Inv(db) && CanReject(db, a, s, now)
    ensures MediaSettled(db, Reject(db, a, s, now), a)
  {
    var answered, settled := RecordAnswer(db, a, s, now), Rejections(db, a, s, now).value;
    assert ActionOk(db.actions[a]);
    AnswerKeepsSlots(db, a, s, now);
    RejectMembersKeeps(answered, a, |db.actions[a].members|, s.members);
    CloseSettlesMedia(settled, a, RejectionClass(db.actions[a].members, s.members));
    SettledAlike(db, settled, Reject(db, a, s, now), a);
  }

  lemma ConcludeSettlesMedia(db: Tables, a: int, results: seq<MemberResult>, cls: ResultClass)
    requires Inv(db) && CanConclude(db, a, results) && forall i :: 0 <= i < |results| ==> Evidential(results[i])
    ensures MediaSettled(db, Conclude(db, a, results, cls), a)
  {
    PollSettles(db, a, results);
    CloseSettlesMedia(Poll(db, a, results), a, cls);
    SettledAlike(db, Poll(db, a, results), Conclude(db, a, results, cls), a);
  }
}
