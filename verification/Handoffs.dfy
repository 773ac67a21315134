/**
 Lock transfers: the history of a lock is a chain that ends at its holder, and it is exactly as
 long as there are handoffs that moved the lock.
 */
module Handoffs {
  import opened Common
  import opened Records
  import opened Protocol
  import opened Shapes

  /** Each entry is about this lock, hands over where the previous one left off, and the last target holds the lock. */
  ghost predicate Chained(lock: Lock) {
    && (forall i :: 0 <= i < |lock.history| ==> lock.history[i].lockId == lock.lockId)
    && (forall i :: 0 <= i < |lock.history| - 1 ==> lock.history[i].target == lock.history[i + 1].source)
    && (lock.history != [] ==> lock.history[|lock.history| - 1].target == lock.holder.Tag())
  }

  /** The handoffs that transferred the lock with this id. */
  function TransfersOf(handoffs: map<string, Handoff>, lockId: string): set<string> {
    set h | h in handoffs && handoffs[h].lockPolicy == Transfer && handoffs[h].releasedLock == Some(lockId)
  }

  /** A handoff is stored under its id, and an open one has not moved a lock. */
  ghost predicate HandoffsKeyed(b: Bundle) {
    forall h :: h in b.handoffs ==>
      b.handoffs[h].handoffId == h && (b.handoffs[h].status == Open ==> b.handoffs[h].releasedLock == None)
  }

  ghost predicate Transferable(b: Bundle) {
    HandoffsKeyed(b) && (b.lock.Some? ==> Chained(b.lock.value))
  }

  /** As many history entries as handoffs that name the lock. */
  ghost predicate Conserved(b: Bundle) {
    b.lock.Some? ==> |TransfersOf(b.handoffs, b.lock.value.lockId)| == |b.lock.value.history|
  }

  /** A lock taken under an id that an earlier lock of the task had, and that a handoff remembers. */
  ghost predicate ReusesLockId(b: Bundle, post: Bundle) {
    && post.lock.Some? && !(b.lock.Some? && SameLease(post.lock.value, b.lock.value))
    && TransfersOf(post.handoffs, post.lock.value.lockId) != {}
  }

  // ---- transfers and releases ----

  lemma TransferKeepsChain(lock: Lock, to: Actor, harness: string, now: int)
    requires Chained(lock)
    ensures var moved := TransferLock(lock, to, harness, now);
      && Chained(moved) && SameLease(moved, lock) && moved.holder == to
      && moved.history[..|lock.history|] == lock.history && |moved.history| == |lock.history| + 1
  {
  }

  lemma ClaimKeepsChain(b: Bundle, id: string, actor: Actor, harness: string, newRun: Option<string>, now: int)
    requires Transferable(b)
    ensures Transferable(ClaimHandoff(b, id, actor, harness, newRun, now).bundle)
  {
    if b.lock.Some? {
      TransferKeepsChain(b.lock.value, actor, harness, now);
    }
  }

  /** A claim adds its handoff to those that transferred the lock exactly when it transfers the lock. */
  lemma ClaimTransfers(b: Bundle, id: string, actor: Actor, harness: string, newRun: Option<string>)
    requires HandoffsKeyed(b) && ClaimRefusal(b, id, actor, harness) == None && b.lock.Some?
    ensures var h := b.handoffs[id]; var lockId := b.lock.value.lockId;
      var claimed := b.handoffs[h.handoffId := ClaimedHandoff(b, h, actor, harness, newRun)];
      && id !in TransfersOf(b.handoffs, lockId)
      && TransfersOf(claimed, lockId)
         == if h.lockPolicy == Transfer && ClaimReachesLock(b, h) then TransfersOf(b.handoffs, lockId) + {id}
            else TransfersOf(b.handoffs, lockId)
  {
  }

  /** What a claim does to the lock and to the number of transfers that name it. */
  lemma ClaimKeeps(b: Bundle, id: string, actor: Actor, harness: string, newRun: Option<string>, now: int)
    requires Transferable(b)
    ensures var post := ClaimHandoff(b, id, actor, harness, newRun, now).bundle;
      Transferable(post) && (Conserved(b) ==> Conserved(post))
  {
    ClaimKeepsChain(b, id, actor, harness, newRun, now);
    if ClaimRefusal(b, id, actor, harness) == None && b.lock.Some? {
      ClaimTransfers(b, id, actor, harness, newRun);
    }
  }

  lemma CloseKeeps(b: Bundle, id: string, note: Option<string>)
    requires Transferable(b)
    ensures var post := CloseHandoff(b, id, note).bundle; Transferable(post) && (Conserved(b) ==> Conserved(post))
  {
    var post := CloseHandoff(b, id, note).bundle;
    if b.lock.Some? {
      assert TransfersOf(post.handoffs, b.lock.value.lockId) == TransfersOf(b.handoffs, b.lock.value.lockId);
    }
  }

  lemma CancelKeeps(b: Bundle, id: string, note: Option<string>)
    requires Transferable(b)
    ensures var post := CancelHandoff(b, id, note).bundle; Transferable(post) && (Conserved(b) ==> Conserved(post))
  {
    var post := CancelHandoff(b, id, note).bundle;
    if b.lock.Some? {
      assert TransfersOf(post.handoffs, b.lock.value.lockId) == TransfersOf(b.handoffs, b.lock.value.lockId);
    }
  }

  lemma ReceiveKeeps(b: Bundle, h: Handoff)
    requires Transferable(b)
    ensures var post := ReceiveHandoff(b, h).bundle; Transferable(post) && (Conserved(b) ==> Conserved(post))
  {
    Ids.NextIdFresh("handoff", b.handoffs.Keys);
    var post := ReceiveHandoff(b, h).bundle;
    if b.lock.Some? {
      assert TransfersOf(post.handoffs, b.lock.value.lockId) == TransfersOf(b.handoffs, b.lock.value.lockId);
    }
  }

  // ---- changes outside the handoffs ----

  /** The handoffs stay, and the lock stays, goes or is a new one with an empty history. */
  ghost predicate LockFresh(b: Bundle, post: Bundle) {
    && post.handoffs == b.handoffs
    && (post.lock == b.lock || post.lock == None || (post.lock.value.history == [] && b.lock == None)
        || (post.lock.value.history == [] && !SameLease(post.lock.value, b.lock.value)))
  }

  lemma FreshKeeps(b: Bundle, post: Bundle)
    requires Transferable(b) && LockFresh(b, post)
    ensures Transferable(post)
    ensures Conserved(b) && !ReusesLockId(b, post) ==> Conserved(post)
    ensures ReusesLockId(b, post) ==> !Conserved(post)
  {
  }
}
