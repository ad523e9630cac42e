/** The Ostiari adapter: configuration snapshots adopted by calls that interleave wherever they wait for the
    host, and a host lifecycle that is started and closed under one lock. */
module Ostiari {
  import opened Options

  /** A signed routing snapshot; documents, digests and keys matter only through equality. */
  datatype Snapshot = Snapshot(revision: nat, document: nat, digest: nat, signed: bool, signingKey: nat)

  /** What the holder of the lifecycle lock is waiting for. */
  datatype Lock = Free | StartingHost | LoadingSnapshot | CleaningUp | ClosingRouter | ClosingHost

  datatype Reply<T> = Returned(value: T) | Raised

  /** One revision never shows two digests, and revisions never fall. */
  ghost predicate Ordered(history: seq<Snapshot>) {
    forall i, j | 0 <= i <= j < |history| ::
      && history[i].revision <= history[j].revision
      && (history[i].revision == history[j].revision ==> history[i].digest == history[j].digest)
  }

  class Adapter {
    const trustedKey: nat
    const ownsRouter: bool

    // the router underneath
    var routerOpen: bool
    var routerRevision: nat
    var routerDigest: nat

    var started: bool
    var closed: bool
    var failed: bool             // the error text is not empty
    var active: Option<Snapshot>
    var lifecycleStarted: bool
    var lock: Lock

    ghost var hostStarts: nat    // host starts that succeeded
    ghost var hostCloses: nat    // host closes that came back
    ghost var history: seq<Snapshot>   // every value of active, oldest first

    constructor (trustedKey: nat, ownsRouter: bool, revision: nat, digest: nat)
      ensures Valid() && !started && !closed && active.None? && lock.Free? && routerOpen
      ensures this.trustedKey == trustedKey && this.ownsRouter == ownsRouter
      ensures routerRevision == revision && routerDigest == digest
      ensures hostStarts == 0 && hostCloses == 0 && history == []
    {
      this.trustedKey, this.ownsRouter := trustedKey, ownsRouter;
      routerOpen, routerRevision, routerDigest := true, revision, digest;
      started, closed, failed, lifecycleStarted := false, false, false, false;
      active, lock := None, Free;
      hostStarts, hostCloses, history := 0, 0, [];
    }

    predicate Ready()
      reads this
    {
      started && !closed
    }

    /** The host lifecycle is balanced and matches the flags, wherever the lock holder waits. */
    ghost predicate Balanced()
      reads this
    {
      && hostStarts == hostCloses + (if lifecycleStarted then 1 else 0)
      && (closed ==> !started)
      && (started ==> lifecycleStarted && active.Some? && !failed)
      && match lock {
           case Free => lifecycleStarted <==> started
           case StartingHost => !started && !closed && !lifecycleStarted
           case LoadingSnapshot => !started && !closed && lifecycleStarted
           case CleaningUp => !started && !closed && lifecycleStarted && failed
           case ClosingRouter => closed && ownsRouter
           case ClosingHost => closed && lifecycleStarted
         }
    }

    /** The router holds the content of the active snapshot, the last of an ordered history. */
    ghost predicate Faithful()
      reads this
    {
      && Ordered(history)
      && (active.None? <==> history == [])
      && (active.Some? ==>
            && active.value == history[|history| - 1]
            && routerRevision == active.value.revision && routerDigest == active.value.digest)
      && (forall s | s in history :: s.signed && s.signingKey == trustedKey)
    }

    ghost predicate Valid()
      reads this
    {
      Balanced() && Faithful()
    }

    // ----- adoption, which never waits -----

    predicate Trusted(s: Snapshot) {
      s.signed && s.signingKey == trustedKey
    }

    /** Newer than what is active, or the same revision with the same digest. */
    predicate Succeeds(s: Snapshot)
      reads this
    {
      match active
      case None => s.revision >= routerRevision
      case Some(a) => s.revision > a.revision || (s.revision == a.revision && s.digest == a.digest)
    }

    /** Either the snapshot becomes the active one, in the adapter and in the router, or nothing changes. */
    method AdoptSnapshot(s: Snapshot) returns (adopted: bool)
      requires Valid()
      modifies this`active, this`routerRevision, this`routerDigest, this`history
      ensures Valid()
      ensures adopted <==> Trusted(s) && old(routerOpen && Succeeds(s))
      ensures adopted ==> active == Some(s) && history == old(history) + [s]
      ensures !adopted ==> unchanged(this)
    {
      if !s.signed { return false; }
      if s.signingKey != trustedKey { return false; }
      if !routerOpen { return false; }
      if active.None? {
        if s.revision < routerRevision { return false; }
        routerRevision, routerDigest := s.revision, s.digest;
      } else {
        var a := active.value;
        if s.revision < a.revision { return false; }
        if s.revision == a.revision {
          if s.digest != a.digest { return false; }
        } else {
          routerRevision, routerDigest := s.revision, s.digest;
        }
      }
      active := Some(s);
      history := history + [s];
      return true;
    }

    // ----- start: three waits under the lock -----

    method BeginStart() returns (raised: bool)
      requires Valid() && lock.Free?
      modifies this`lock
      ensures Valid()
      ensures raised == closed
      ensures lock == if closed || started then Free else StartingHost
    {
      if closed { return true; }
      if !started { lock := StartingHost; }
      return false;
    }

    method HostStartReturns(ok: bool)
      requires Valid() && lock.StartingHost?
      modifies this`lock, this`lifecycleStarted, this`failed, this`hostStarts
      ensures Valid()
      ensures hostStarts == old(hostStarts) + (if ok then 1 else 0)
      ensures lock == (if ok then LoadingSnapshot else Free) && failed == (old(failed) || !ok)
    {
      if ok {
        lifecycleStarted, hostStarts := true, hostStarts + 1;
        lock := LoadingSnapshot;
      } else {
        failed, lock := true, Free;
      }
    }

    method FirstSnapshotLoads(loaded: Reply<Snapshot>)
      requires Valid() && lock.LoadingSnapshot?
      modifies this`lock, this`started, this`failed, this`active, this`routerRevision, this`routerDigest, this`history
      ensures Valid()
      ensures started <==> loaded.Returned? && Trusted(loaded.value) && old(routerOpen && Succeeds(loaded.value))
      ensures started ==> lock.Free? && Ready() && active == Some(loaded.value)
                          && history == old(history) + [loaded.value]
      ensures !started ==> lock.CleaningUp? && active == old(active) && history == old(history)
                           && routerRevision == old(routerRevision) && routerDigest == old(routerDigest)
    {
      var adopted := false;
      if loaded.Returned? {
        adopted := AdoptSnapshot(loaded.value);
      }
      started, failed := adopted, !adopted;
      lock := if adopted then Free else CleaningUp;
    }

    /** The cleanup's own error is only logged. */
    method CleanupReturns(ok: bool)
      requires Valid() && lock.CleaningUp?
      modifies this`lock, this`lifecycleStarted, this`hostCloses
      ensures Valid() && lock.Free? && hostCloses == old(hostCloses) + 1 && hostStarts == hostCloses
    {
      hostCloses, lifecycleStarted, lock := hostCloses + 1, false, Free;
    }

    // ----- close: two waits under the lock -----

    method BeginClose()
      requires Valid() && lock.Free?
      modifies this`lock, this`closed, this`started, this`routerOpen
      ensures Valid() && closed && !Ready()
      ensures routerOpen == (old(routerOpen) && (old(closed) || !ownsRouter))
      ensures lock == if old(closed) then Free
                      else if ownsRouter then ClosingRouter
                      else if lifecycleStarted then ClosingHost else Free
    {
      if closed { return; }
      closed, started := true, false;
      if ownsRouter {
        routerOpen, lock := false, ClosingRouter;
      } else if lifecycleStarted {
        lock := ClosingHost;
      }
    }

    /** An error of the router's close is kept for later; the host is closed all the same. */
    method RouterCloseReturns(ok: bool)
      requires Valid() && lock.ClosingRouter?
      modifies this`lock
      ensures Valid() && lock == if lifecycleStarted then ClosingHost else Free
    {
      lock := if lifecycleStarted then ClosingHost else Free;
    }

    method HostCloseReturns(ok: bool)
      requires Valid() && lock.ClosingHost?
      modifies this`lock, this`lifecycleStarted, this`hostCloses
      ensures Valid() && lock.Free? && hostCloses == old(hostCloses) + 1 && hostStarts == hostCloses
    {
      hostCloses, lifecycleStarted, lock := hostCloses + 1, false, Free;
    }

    // ----- refresh and publish: no lock, one wait each -----

    /** The load has come back.  The call returns exactly when the snapshot was adopted and the adapter is
        still ready; a close during the wait makes it raise. */
    method FinishRefresh(loaded: Reply<Snapshot>) returns (r: Reply<Snapshot>)
      requires Valid()
      modifies this`active, this`routerRevision, this`routerDigest, this`history
      ensures Valid()
      ensures r.Returned? ==> Ready() && loaded == r && active == Some(r.value)
      ensures r.Returned? <==> && loaded.Returned? && Trusted(loaded.value)
                               && old(routerOpen && Succeeds(loaded.value)) && Ready()
      ensures old(history) <= history
      ensures !(loaded.Returned? && Trusted(loaded.value) && old(routerOpen && Succeeds(loaded.value))) ==> unchanged(this)
    {
      if loaded.Raised? { return Raised; }
      var adopted := AdoptSnapshot(loaded.value);
      if !adopted || !started || closed { return Raised; }
      return Returned(active.value);
    }

    /** The candidate is the validated configuration at the next revision; building it may raise. */
    method BeginPublish(expected: nat, candidate: Reply<Snapshot>) returns (go: bool)
      requires Valid() && (candidate.Returned? ==> candidate.value.revision == expected + 1)
      ensures go <==> Ready() && active.value.revision == expected && candidate.Returned?
    {
      if closed || !started { return false; }
      go := active.value.revision == expected && candidate.Returned?;
    }

    predicate Matches(published: Snapshot, candidate: Snapshot) {
      && published.revision == candidate.revision
      && published.document == candidate.document
      && published.digest == candidate.digest
    }

    /** A publish that returns has its snapshot active at that moment; one that raises changed nothing. */
    method FinishPublish(candidate: Snapshot, published: Reply<Snapshot>) returns (r: Reply<Snapshot>)
      requires Valid()
      modifies this`active, this`routerRevision, this`routerDigest, this`history
      ensures Valid()
      ensures r.Returned? ==> published == r && Matches(r.value, candidate) && active == Some(r.value)
                              && routerRevision == candidate.revision && routerDigest == candidate.digest
      ensures r.Returned? <==> && published.Returned? && Trusted(published.value) && Matches(published.value, candidate)
                               && old(routerOpen && Succeeds(published.value))
      ensures old(history) <= history
      ensures r.Raised? ==> unchanged(this)
    {
      if published.Raised? { return Raised; }
      var s := published.value;
      if !s.signed || s.signingKey != trustedKey { return Raised; }
      if s.revision != candidate.revision || s.document != candidate.document || s.digest != candidate.digest {
        return Raised;
      }
      var adopted := AdoptSnapshot(s);
      if !adopted { return Raised; }
      return Returned(s);
    }
  }

  // ----- any interleaving -----

  /** One resumption of some call; a resumption nobody waits for does not happen. */
  datatype Event =
    | Start | HostStarted(ok: bool) | FirstLoad(loaded: Reply<Snapshot>) | CleanedUp(ok: bool)
    | Close | RouterClosed(ok: bool) | HostClosed(ok: bool)
    | Refresh | Refreshed(loaded: Reply<Snapshot>)
    | Publish(expected: nat, candidate: Reply<Snapshot>) | Published(k: nat, published: Reply<Snapshot>)

  /** Any number of calls in flight, resumed in any order: the active revision never falls and never
      shows a second digest, a closed adapter stays closed, and host starts and closes stay balanced. */
  method Interleave(a: Adapter, events: seq<Event>)
    requires a.Valid()
    modifies a
    ensures a.Valid()
    ensures old(a.history) <= a.history && Ordered(a.history)
    ensures old(a.active.Some?) ==>
              && a.active.Some? && a.active.value.revision >= old(a.active.value.revision)
              && (a.active.value.revision == old(a.active.value.revision) ==>
                    a.active.value.digest == old(a.active.value.digest))
    ensures a.active.Some? ==> a.routerRevision == a.active.value.revision && a.routerDigest == a.active.value.digest
    ensures old(a.closed) ==> a.closed && !a.Ready()
    ensures a.hostStarts - a.hostCloses == if a.lifecycleStarted then 1 else 0
  {
    var refreshing := 0;
    var publishing: seq<Snapshot> := [];
    for n := 0 to |events|
      invariant a.Valid() && old(a.history) <= a.history && (old(a.closed) ==> a.closed)
    {
      match events[n] {
        case Start => if a.lock.Free? { var _ := a.BeginStart(); }
        case HostStarted(ok) => if a.lock.StartingHost? { a.HostStartReturns(ok); }
        case FirstLoad(loaded) => if a.lock.LoadingSnapshot? { a.FirstSnapshotLoads(loaded); }
        case CleanedUp(ok) => if a.lock.CleaningUp? { a.CleanupReturns(ok); }
        case Close => if a.lock.Free? { a.BeginClose(); }
        case RouterClosed(ok) => if a.lock.ClosingRouter? { a.RouterCloseReturns(ok); }
        case HostClosed(ok) => if a.lock.ClosingHost? { a.HostCloseReturns(ok); }
        case Refresh => if a.started && !a.closed { refreshing := refreshing + 1; }
        case Refreshed(loaded) =>
          if refreshing > 0 {
            refreshing := refreshing - 1;
            var _ := a.FinishRefresh(loaded);
          }
        case Publish(expected, candidate) =>
          if candidate.Returned? && candidate.value.revision == expected + 1 {
            var go := a.BeginPublish(expected, candidate);
            if go { publishing := publishing + [candidate.value]; }
          }
        case Published(k, published) =>
          if k < |publishing| {
            var candidate := publishing[k];
            publishing := publishing[..k] + publishing[k + 1..];
            var _ := a.FinishPublish(candidate, published);
          }
      }
    }
    if old(a.active.Some?) {
      assert a.history[|old(a.history)| - 1] == old(a.active.value);
    }
  }
}
