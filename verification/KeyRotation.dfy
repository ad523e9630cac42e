/** Rotating the demo personas' keys: issue new ones, store them, then revoke the old ones; undo on failure.
    Any call of the key service and the store may raise, and a cancellation may be thrown into any of them. */
module KeyRotation {

  datatype Persona = Persona(tenant: string, project: string, title: string)

  /** A persona's key name is its tenant after a fixed prefix. */
  datatype KeyName = DemoTenantAdmin(tenant: string) | OtherName(text: string)

  datatype Key = Key(tenant: string, project: string, name: KeyName, revoked: bool)

  function KeyOf(p: Persona): Key {
    Key(p.tenant, p.project, DemoTenantAdmin(p.tenant), false)
  }

  type Keys = map<nat, Key>

  datatype Reply<T> = Returned(value: T) | Raised(cancelled: bool)

  /** What comes of one call.  It may have taken effect although the caller gets an exception. */
  datatype Fate = Answers | Raises(landed: bool) | Cancels(landed: bool)

  predicate TakesEffect(f: Fate) {
    f.Answers? || f.landed
  }

  /** What comes of the calls of one provisioning, in the order in which it makes them. */
  type Script = nat -> Fate

  predicate Answered(script: Script, from: nat, to: nat) {
    forall k | from <= k < to :: script(k).Answers?
  }

  /** The first call that does not answer. */
  predicate FirstFailure(script: Script, at: nat) {
    Answered(script, 0, at) && !script(at).Answers?
  }

  // ----- the seed -----

  datatype SeedTenant = SeedTenant(tenant: string, project: string, personaLabel: string, displayName: string)

  predicate Blank(s: string) {
    forall i | 0 <= i < |s| :: s[i] in {' ', '\t', '\n', '\r'}
  }

  /** The label falls back to the display name when it is empty. */
  function Title(t: SeedTenant): string {
    if t.personaLabel == "" then t.displayName else t.personaLabel
  }

  function FromSeed(t: SeedTenant): Persona {
    Persona(t.tenant, t.project, Title(t))
  }

  predicate Complete(t: SeedTenant) {
    !Blank(t.tenant) && !Blank(t.project) && !Blank(Title(t))
  }

  predicate TenantsDistinct(ps: seq<Persona>) {
    forall i, j | 0 <= i < j < |ps| :: ps[i].tenant != ps[j].tenant
  }

  /** Accepts exactly the seeds with at least two tenants, all complete and no tenant twice. */
  method PersonasFromSeed(seed: seq<SeedTenant>) returns (r: Reply<seq<Persona>>)
    ensures r.Returned? <==> && |seed| >= 2 && (forall i | 0 <= i < |seed| :: Complete(seed[i]))
                             && (forall i, j | 0 <= i < j < |seed| :: seed[i].tenant != seed[j].tenant)
    ensures r.Returned? ==> TenantsDistinct(r.value) && |r.value| == |seed|
                            && forall i | 0 <= i < |seed| :: r.value[i] == FromSeed(seed[i])
  {
    var personas: seq<Persona> := [];
    var seen: set<string> := {};
    for i := 0 to |seed|
      invariant |personas| == i && forall j | 0 <= j < i :: personas[j] == FromSeed(seed[j]) && Complete(seed[j])
      invariant forall t :: t in seen <==> exists j :: 0 <= j < i && seed[j].tenant == t
      invariant forall j, k | 0 <= j < k < i :: seed[j].tenant != seed[k].tenant
    {
      if !Complete(seed[i]) { return Raised(false); }
      if seed[i].tenant in seen { return Raised(false); }
      seen := seen + {seed[i].tenant};
      personas := personas + [FromSeed(seed[i])];
    }
    if |personas| < 2 { return Raised(false); }
    return Returned(personas);
  }

  // ----- the key service -----

  predicate Lives(keys: Keys, id: nat, p: Persona) {
    id in keys && keys[id] == KeyOf(p)
  }

  predicate Live(keys: Keys, id: nat) {
    id in keys && !keys[id].revoked
  }

  function Revoked(keys: Keys, id: nat): Keys
    requires id in keys
  {
    keys[id := keys[id].(revoked := true)]
  }

  ghost predicate HasLive(keys: Keys, p: Persona) {
    exists id :: Lives(keys, id, p)
  }

  /** Every persona that has a live key of its name in the first has one in the second. */
  ghost predicate Covers(before: Keys, keys: Keys, ps: seq<Persona>) {
    forall i | 0 <= i < |ps| :: HasLive(before, ps[i]) ==> HasLive(keys, ps[i])
  }

  lemma Bound(ids: set<nat>) returns (b: nat)
    ensures forall id | id in ids :: id < b
  {
    b := 0;
    if ids != {} {
      var id :| id in ids;
      b := Bound(ids - {id});
      b := if id < b then b else id + 1;
      assert forall k | k in ids :: k == id || k in ids - {id};
    }
  }

  /** The service, watched on behalf of some personas: from the given start on, none that had a live key
      is ever without one.  Every change of the keys has to keep this. */
  class KeyService {
    var keys: Keys
    var stored: bool             // the store holds the new document
    var made: nat                // calls so far
    const script: Script
    ghost const start: Keys
    ghost const watched: seq<Persona>

    constructor (keys: Keys, script: Script, ghost watched: seq<Persona>)
      ensures this.keys == keys == start && this.watched == watched && this.script == script
      ensures Valid() && made == 0 && !stored
    {
      this.keys, this.script, this.start, this.watched := keys, script, keys, watched;
      made, stored := 0, false;
    }

    ghost predicate Valid()
      reads this
    {
      Covers(start, keys, watched)
    }

    /** The project of the persona; one that is not there raises, too. */
    method GetProject() returns (r: Reply<bool>)
      modifies this`made
      ensures made == old(made) + 1 && FollowsScript(script(old(made)), r)
    {
      var f := script(made);
      made := made + 1;
      r := if f.Answers? then Returned(true) else Raised(f.Cancels?);
    }

    /** The live keys of this name in the persona's project. */
    method ListKeys(p: Persona) returns (r: Reply<set<nat>>)
      modifies this`made
      ensures made == old(made) + 1 && FollowsScript(script(old(made)), r)
      ensures r.Returned? ==> forall id :: id in r.value <==> Lives(keys, id, p)
    {
      var f := script(made);
      made := made + 1;
      r := if f.Answers? then Returned(set id | id in keys && keys[id] == KeyOf(p)) else Raised(f.Cancels?);
    }

    /** A new key under a fresh identifier, which the caller learns only from an answer. */
    method IssueKey(p: Persona) returns (r: Reply<nat>, ghost id: nat)
      requires Valid()
      modifies this`made, this`keys
      ensures Valid() && made == old(made) + 1 && FollowsScript(script(old(made)), r)
      ensures id !in old(keys) && (r.Returned? ==> r.value == id)
      ensures keys == if TakesEffect(script(old(made))) then old(keys)[id := KeyOf(p)] else old(keys)
    {
      var f := script(made);
      made := made + 1;
      ghost var bound := Bound(keys.Keys);
      assert bound !in keys;
      var unused: nat :| unused !in keys;
      id := unused;
      if TakesEffect(f) {
        KeepingCovers(keys, keys[unused := KeyOf(p)], watched);
        keys := keys[unused := KeyOf(p)];
      }
      r := if f.Answers? then Returned(unused) else Raised(f.Cancels?);
    }

    method Store() returns (r: Reply<bool>)
      modifies this`made, this`stored
      ensures made == old(made) + 1 && FollowsScript(script(old(made)), r)
      ensures stored == (old(stored) || TakesEffect(script(old(made))))
    {
      var f := script(made);
      made := made + 1;
      if TakesEffect(f) { stored := true; }
      r := if f.Answers? then Returned(true) else Raised(f.Cancels?);
    }

    method RevokeKey(id: nat, tenant: string) returns (r: Reply<bool>)
      requires Valid()
      requires id in keys ==> Covers(start, Revoked(keys, id), watched)
      modifies this`made, this`keys
      ensures Valid() && made == old(made) + 1 && FollowsScript(script(old(made)), r)
      ensures var found := id in old(keys) && old(keys)[id].tenant == tenant && !old(keys)[id].revoked;
              && (r.Returned? ==> r.value == found)
              && keys == if found && TakesEffect(script(old(made))) then Revoked(old(keys), id) else old(keys)
    {
      var f := script(made);
      made := made + 1;
      var found := id in keys && keys[id].tenant == tenant && !keys[id].revoked;
      if found && TakesEffect(f) { keys := Revoked(keys, id); }
      r := if f.Answers? then Returned(found) else Raised(f.Cancels?);
    }
  }

  predicate FollowsScript<T>(f: Fate, r: Reply<T>) {
    match f
    case Answers => r.Returned?
    case Raises(_) => r == Raised(false)
    case Cancels(_) => r == Raised(true)
  }

  // ----- provisioning -----

  datatype Issued = Issued(persona: Persona, id: nat)

  datatype Previous = Previous(persona: Persona, ids: set<nat>)

  predicate IsNew(issued: seq<Issued>, id: nat) {
    exists i :: 0 <= i < |issued| && issued[i].id == id
  }

  /** The first keys, plus one new live key for each of the first personas, and live keys nobody knows of. */
  ghost predicate Extended(first: Keys, keys: Keys, issued: seq<Issued>, ps: seq<Persona>, strays: set<nat>) {
    && |issued| <= |ps|
    && (forall i | 0 <= i < |issued| ::
          issued[i].persona == ps[i] && issued[i].id !in first && Lives(keys, issued[i].id, ps[i]))
    && (forall i, j | 0 <= i < j < |issued| :: issued[i].id != issued[j].id)
    && (forall id | id in first :: id in keys && keys[id] == first[id])
    && (forall id | id in keys :: id in first || id in strays || IsNew(issued, id))
    && (forall id | id in strays :: id !in first && Live(keys, id) && !IsNew(issued, id))
  }

  /** These are the live keys the persona had at first. */
  ghost predicate Recalls(first: Keys, previous: Previous, p: Persona) {
    previous.persona == p && forall id :: id in previous.ids <==> Lives(first, id, p)
  }

  ghost predicate Remembered(first: Keys, previous: seq<Previous>, ps: seq<Persona>) {
    && |previous| <= |ps|
    && forall i | 0 <= i < |previous| :: Recalls(first, previous[i], ps[i])
  }

  lemma OneMoreIssued(first: Keys, keys: Keys, issued: seq<Issued>, ps: seq<Persona>, id: nat)
    requires Extended(first, keys, issued, ps, {}) && |issued| < |ps| && id !in keys
    ensures var p := ps[|issued|]; Extended(first, keys[id := KeyOf(p)], issued + [Issued(p, id)], ps, {})
  {
    var p := ps[|issued|];
    var issued' := issued + [Issued(p, id)];
    forall k | k in keys[id := KeyOf(p)] && k !in first ensures IsNew(issued', k) {
      if k == id {
        assert issued'[|issued|].id == id;
      } else {
        var i :| 0 <= i < |issued| && issued[i].id == k;
        assert issued'[i].id == k;
      }
    }
  }

  lemma OneStray(first: Keys, keys: Keys, issued: seq<Issued>, ps: seq<Persona>, id: nat, p: Persona)
    requires Extended(first, keys, issued, ps, {}) && id !in keys
    ensures Extended(first, keys[id := KeyOf(p)], issued, ps, {id})
  {
    assert forall i | 0 <= i < |issued| :: Lives(keys, issued[i].id, ps[i]);
  }

  /** What is listed for a persona before its key is issued is what it had at first: the keys issued so
      far belong to other tenants. */
  lemma ListedWasFirst(first: Keys, keys: Keys, issued: seq<Issued>, ps: seq<Persona>, listed: set<nat>)
    requires TenantsDistinct(ps) && Extended(first, keys, issued, ps, {}) && |issued| < |ps|
    requires forall id :: id in listed <==> Lives(keys, id, ps[|issued|])
    ensures Recalls(first, Previous(ps[|issued|], listed), ps[|issued|])
  {
    var p := ps[|issued|];
    assert forall i | 0 <= i < |issued| :: ps[i].tenant != p.tenant;
  }

  /** Whether the failing call was the issue of a key, and the key is there all the same. */
  predicate LeavesStray(script: Script, at: nat) {
    at % 3 == 2 && TakesEffect(script(at))
  }

  /** One more key is issued, or at most a stray one. */
  method IssueNext(service: KeyService, issued: seq<Issued>, p: Persona, ghost first: Keys, ghost ps: seq<Persona>)
    returns (key: Reply<nat>, ghost strays: set<nat>)
    requires service.Valid() && Extended(first, service.keys, issued, ps, {})
    requires |issued| < |ps| && p == ps[|issued|]
    modifies service`made, service`keys
    ensures service.Valid() && service.made == old(service.made) + 1
    ensures FollowsScript(service.script(old(service.made)), key)
    ensures key.Returned? ==>
              strays == {} && Extended(first, service.keys, issued + [Issued(p, key.value)], ps, {})
    ensures key.Raised? ==>
              && Extended(first, service.keys, issued, ps, strays)
              && (strays == {} <==> !TakesEffect(service.script(old(service.made))))
  {
    ghost var id;
    key, id := service.IssueKey(p);
    strays := {};
    if key.Returned? {
      OneMoreIssued(first, old(service.keys), issued, ps, id);
    } else if TakesEffect(service.script(old(service.made))) {
      OneStray(first, old(service.keys), issued, ps, id, p);
      strays := {id};
    }
  }

  /** Each persona has three calls. */
  lemma PlaceOf(i: nat, call: nat)
    requires call < 3
    ensures (3 * i + call) / 3 == i && (3 * i + call) % 3 == call
  {
  }

  /** The three calls for the next persona: its project, the keys it has, and a new one. */
  method IssueFor(service: KeyService, p: Persona, issued: seq<Issued>, ghost first: Keys, ghost ps: seq<Persona>)
    returns (failure: Reply<nat>, listed: set<nat>, ghost strays: set<nat>)
    requires TenantsDistinct(ps) && service.Valid() && Extended(first, service.keys, issued, ps, {})
    requires |issued| < |ps| && p == ps[|issued|] && service.made == 3 * |issued|
    modifies service`made, service`keys
    ensures service.Valid()
    ensures failure.Returned? ==>
              && strays == {} && service.made == old(service.made) + 3
              && Answered(service.script, old(service.made), service.made)
              && Extended(first, service.keys, issued + [Issued(p, failure.value)], ps, {})
              && Recalls(first, Previous(p, listed), p)
    ensures failure.Raised? ==>
              && var at: int := service.made - 1;
                 && old(service.made) <= at < old(service.made) + 3 && at / 3 == |issued|
                 && Answered(service.script, old(service.made), at) && !service.script(at).Answers?
                 && failure.cancelled == service.script(at).Cancels?
                 && Extended(first, service.keys, issued, ps, strays)
                 && (strays == {} <==> !LeavesStray(service.script, at))
  {
    listed, strays := {}, {};
    PlaceOf(|issued|, 0);
    PlaceOf(|issued|, 1);
    PlaceOf(|issued|, 2);
    var project := service.GetProject();
    if project.Raised? { return Raised(project.cancelled), listed, strays; }
    var keys := service.ListKeys(p);
    if keys.Raised? { return Raised(keys.cancelled), listed, strays; }
    listed := keys.value;
    ListedWasFirst(first, service.keys, issued, ps, listed);
    failure, strays := IssueNext(service, issued, p, first, ps);
  }

  /** Issue a key for every persona, remembering the live ones it had. */
  method IssueAll(service: KeyService, ps: seq<Persona>)
    returns (failure: Reply<nat>, issued: seq<Issued>, previous: seq<Previous>, ghost strays: set<nat>)
    requires TenantsDistinct(ps) && service.Valid() && service.made == 0
    modifies service`made, service`keys
    ensures service.Valid() && Extended(old(service.keys), service.keys, issued, ps, strays)
    ensures failure.Returned? ==>
              && strays == {} && Answered(service.script, 0, 3 * |ps|) && service.made == 3 * |ps|
              && |issued| == |previous| == |ps| && Remembered(old(service.keys), previous, ps)
    ensures failure.Raised? ==>
              && var at: int := service.made - 1;
                 && 0 <= at < 3 * |ps| && FirstFailure(service.script, at) && |issued| == at / 3
                 && failure.cancelled == service.script(at).Cancels?
                 && (strays == {} <==> !LeavesStray(service.script, at))
  {
    issued, previous, strays, failure := [], [], {}, Returned(0);
    for i := 0 to |ps|
      invariant service.Valid() && |issued| == i == |previous| && strays == {} && failure.Returned?
      invariant service.made == 3 * i && Answered(service.script, 0, 3 * i)
      invariant Extended(old(service.keys), service.keys, issued, ps, {})
      invariant Remembered(old(service.keys), previous, ps)
    {
      var listed;
      failure, listed, strays := IssueFor(service, ps[i], issued, old(service.keys), ps);
      if failure.Raised? { return; }
      previous := previous + [Previous(ps[i], listed)];
      issued := issued + [Issued(ps[i], failure.value)];
    }
  }

  lemma KeepingCovers(first: Keys, keys: Keys, ps: seq<Persona>)
    requires forall id | id in first :: id in keys && keys[id] == first[id]
    ensures Covers(first, keys, ps)
  {
    forall i | 0 <= i < |ps| && HasLive(first, ps[i]) ensures HasLive(keys, ps[i]) {
      var id :| Lives(first, id, ps[i]);
      assert Lives(keys, id, ps[i]);
    }
  }

  /** Of the new keys the first are revoked and the rest live; the old keys are as they were. */
  ghost predicate Undoing(first: Keys, keys: Keys, issued: seq<Issued>, ps: seq<Persona>, strays: set<nat>, n: nat) {
    && n <= |issued| <= |ps|
    && (forall i | 0 <= i < |issued| :: issued[i].persona == ps[i] && issued[i].id !in first && issued[i].id in keys)
    && (forall i, j | 0 <= i < j < |issued| :: issued[i].id != issued[j].id)
    && (forall i | 0 <= i < n :: keys[issued[i].id].revoked)
    && (forall i | n <= i < |issued| :: keys[issued[i].id] == KeyOf(ps[i]))
    && (forall id | id in first :: id in keys && keys[id] == first[id])
    && (forall id | id in keys :: id in first || id in strays || IsNew(issued, id))
    && (forall id | id in strays :: id !in first && Live(keys, id) && !IsNew(issued, id))
  }

  lemma UndoStep(first: Keys, keys: Keys, issued: seq<Issued>, ps: seq<Persona>, strays: set<nat>, n: nat)
    requires Undoing(first, keys, issued, ps, strays, n) && n < |issued|
    ensures var id := issued[n].id;
            id in keys && Undoing(first, Revoked(keys, id), issued, ps, strays, n + 1)
  {
  }

  ghost predicate Restored(first: Keys, keys: Keys) {
    forall id :: Live(keys, id) <==> Live(first, id)
  }

  lemma RestoredWhenUndone(first: Keys, keys: Keys, issued: seq<Issued>, ps: seq<Persona>, strays: set<nat>, n: nat)
    requires Undoing(first, keys, issued, ps, strays, n)
    ensures Restored(first, keys) <==> strays == {} && n == |issued|
  {
    if n < |issued| {
      assert Live(keys, issued[n].id) && !Live(first, issued[n].id);
    } else if strays != {} {
      var id :| id in strays;
      assert Live(keys, id) && !Live(first, id);
    }
  }

  method UndoOne(service: KeyService, issued: seq<Issued>, i: nat, ghost first: Keys, ghost ps: seq<Persona>,
                 ghost strays: set<nat>)
    returns (ok: bool)
    requires service.Valid() && service.start == first
    requires Undoing(first, service.keys, issued, ps, strays, i) && i < |issued|
    modifies service`made, service`keys
    ensures service.Valid() && service.made == old(service.made) + 1
    ensures ok == service.script(old(service.made)).Answers?
    ensures Undoing(first, service.keys, issued, ps, strays,
                    if TakesEffect(service.script(old(service.made))) then i + 1 else i)
  {
    UndoStep(first, service.keys, issued, ps, strays, i);
    KeepingCovers(first, Revoked(service.keys, issued[i].id), service.watched);
    var r := service.RevokeKey(issued[i].id, issued[i].persona.tenant);
    ok := r.Returned?;
  }

  /** Revoke what was issued, in order.  A raise stops it. */
  method RollBack(service: KeyService, issued: seq<Issued>, ghost first: Keys, ghost ps: seq<Persona>,
                  ghost strays: set<nat>)
    returns (ghost undone: nat)
    requires service.Valid() && service.start == first && Undoing(first, service.keys, issued, ps, strays, 0)
    modifies service`made, service`keys
    ensures service.Valid() && Undoing(first, service.keys, issued, ps, strays, undone)
    ensures undone == |issued| <==> RevokesAll(service.script, old(service.made), |issued|)
  {
    undone := 0;
    for i := 0 to |issued|
      invariant service.Valid() && undone == i && Undoing(first, service.keys, issued, ps, strays, i)
      invariant service.made == old(service.made) + i && Answered(service.script, old(service.made), service.made)
    {
      var ok := UndoOne(service, issued, i, first, ps, strays);
      undone := if TakesEffect(service.script(service.made - 1)) then i + 1 else i;
      if !ok { return; }
    }
  }

  /** That many revocations in a row take effect: a raise is harmless only in the last. */
  predicate RevokesAll(script: Script, from: nat, count: nat) {
    count > 0 ==> Answered(script, from, from + count - 1) && TakesEffect(script(from + count - 1))
  }

  /** What a persona's live key looks like. */
  ghost function TheirKeys(ps: seq<Persona>): set<Key> {
    set i | 0 <= i < |ps| :: KeyOf(ps[i])
  }

  /** Keys that are none of these stay exactly as they were. */
  ghost predicate Untouched(first: Keys, keys: Keys, theirs: set<Key>) {
    forall id | id in first :: id in keys && (keys[id] == first[id] || first[id] in theirs)
  }

  /** Every new key lives, old keys were at most revoked, and none but the personas' was. */
  ghost predicate Rotating(first: Keys, keys: Keys, issued: seq<Issued>, ps: seq<Persona>, theirs: set<Key>) {
    && |issued| == |ps|
    && (forall i | 0 <= i < |ps| :: issued[i].id !in first && Lives(keys, issued[i].id, ps[i]))
    && (forall id | id in keys :: id in first || IsNew(issued, id))
    && (forall id | id in first :: id in keys && (keys[id] == first[id] || keys[id] == first[id].(revoked := true)))
    && (forall i | 0 <= i < |ps| :: KeyOf(ps[i]) in theirs)
    && Untouched(first, keys, theirs)
  }

  /** None of the persona's old keys lives. */
  ghost predicate Replaced(first: Keys, keys: Keys, p: Persona) {
    forall id | Lives(first, id, p) :: !Live(keys, id)
  }

  lemma RotateStep(first: Keys, keys: Keys, issued: seq<Issued>, ps: seq<Persona>, theirs: set<Key>, n: nat, id: nat)
    requires Rotating(first, keys, issued, ps, theirs) && n < |ps| && Lives(first, id, ps[n]) && id in keys
    ensures Rotating(first, Revoked(keys, id), issued, ps, theirs)
  {
  }

  lemma OnlyTheNewLives(first: Keys, keys: Keys, issued: seq<Issued>, ps: seq<Persona>, theirs: set<Key>,
                        n: nat, id: nat)
    requires TenantsDistinct(ps) && Rotating(first, keys, issued, ps, theirs) && n < |ps|
    requires Replaced(first, keys, ps[n]) && Lives(keys, id, ps[n])
    ensures id == issued[n].id
  {
    assert Live(keys, id);
    if id !in first {
      assert IsNew(issued, id);
      var i :| 0 <= i < |issued| && issued[i].id == id;
      assert Lives(keys, issued[i].id, ps[i]) && ps[i].tenant == ps[n].tenant;
    }
  }

  lemma NewKeysCover(first: Keys, keys: Keys, issued: seq<Issued>, ps: seq<Persona>, theirs: set<Key>)
    requires Rotating(first, keys, issued, ps, theirs)
    ensures Covers(first, keys, ps)
  {
    forall i | 0 <= i < |ps| ensures HasLive(keys, ps[i]) {
      assert Lives(keys, issued[i].id, ps[i]);
    }
  }

  /** Whatever lives lived before. */
  ghost predicate NoneAdded(before: Keys, keys: Keys) {
    forall id | Live(keys, id) :: Live(before, id)
  }

  /** Of these keys none but the rest lives. */
  ghost predicate Gone(ids: set<nat>, rest: set<nat>, keys: Keys) {
    forall id | id in ids && id !in rest :: !Live(keys, id)
  }

  lemma GoneFurther(ids: set<nat>, rest: set<nat>, before: Keys, keys: Keys, id: nat)
    requires Gone(ids, rest, before) && NoneAdded(before, keys) && !Live(keys, id)
    ensures Gone(ids, rest - {id}, keys)
  {
  }

  lemma StayReplaced(first: Keys, before: Keys, keys: Keys, ps: seq<Persona>, n: nat)
    requires n <= |ps| && forall j | 0 <= j < n :: Replaced(first, before, ps[j])
    requires NoneAdded(before, keys)
    ensures forall j | 0 <= j < n :: Replaced(first, keys, ps[j])
  {
  }

  /** The calls since then all answered, up to the last one if it went wrong. */
  predicate RanInto(script: Script, from: nat, made: nat, ok: bool) {
    && from <= made
    && if ok then Answered(script, from, made)
       else from < made && Answered(script, from, made - 1) && !script(made - 1).Answers?
  }

  /** Revoke what each persona had before. */
  method RevokePrevious(service: KeyService, ghost issued: seq<Issued>, previous: seq<Previous>, ghost first: Keys,
                        ghost ps: seq<Persona>, ghost theirs: set<Key>)
    returns (done: bool)
    requires service.Valid() && service.start == first && service.watched == ps
    requires |previous| == |ps| && Rotating(first, service.keys, issued, ps, theirs) && Remembered(first, previous, ps)
    modifies service`made, service`keys
    ensures service.Valid() && Rotating(first, service.keys, issued, ps, theirs)
    ensures RanInto(service.script, old(service.made), service.made, done)
    ensures done ==> forall i | 0 <= i < |ps| :: Replaced(first, service.keys, ps[i])
  {
    for i := 0 to |previous|
      invariant service.Valid() && Rotating(first, service.keys, issued, ps, theirs)
      invariant RanInto(service.script, old(service.made), service.made, true)
      invariant forall j | 0 <= j < i :: Replaced(first, service.keys, ps[j])
    {
      ghost var before := service.keys;
      var ok := RevokeOf(service, previous[i], issued, first, ps, theirs, i);
      if !ok { return false; }
      StayReplaced(first, before, service.keys, ps, i);
    }
    done := true;
  }

  method RevokeOf(service: KeyService, previous: Previous, ghost issued: seq<Issued>, ghost first: Keys,
                  ghost ps: seq<Persona>, ghost theirs: set<Key>, ghost n: nat)
    returns (done: bool)
    requires service.Valid() && service.start == first && service.watched == ps
    requires n < |ps| && Rotating(first, service.keys, issued, ps, theirs)
    requires Recalls(first, previous, ps[n])
    modifies service`made, service`keys
    ensures service.Valid() && Rotating(first, service.keys, issued, ps, theirs)
    ensures RanInto(service.script, old(service.made), service.made, done)
    ensures done ==> Replaced(first, service.keys, ps[n])
    ensures NoneAdded(old(service.keys), service.keys)
  {
    var rest := previous.ids;
    while rest != {}
      invariant rest <= previous.ids && service.Valid() && Rotating(first, service.keys, issued, ps, theirs)
      invariant RanInto(service.script, old(service.made), service.made, true)
      invariant Gone(previous.ids, rest, service.keys)
      invariant NoneAdded(old(service.keys), service.keys)
      decreases |rest|
    {
      ghost var before := service.keys;
      var id :| id in rest;
      var ok := RevokeOne(service, id, previous.persona.tenant, issued, first, ps, theirs, n);
      if !ok { return false; }
      GoneFurther(previous.ids, rest, before, service.keys, id);
      rest := rest - {id};
    }
    done := true;
  }

  method RevokeOne(service: KeyService, id: nat, tenant: string, ghost issued: seq<Issued>, ghost first: Keys,
                   ghost ps: seq<Persona>, ghost theirs: set<Key>, ghost n: nat)
    returns (done: bool)
    requires service.Valid() && service.start == first && service.watched == ps
    requires n < |ps| && Rotating(first, service.keys, issued, ps, theirs)
    requires Lives(first, id, ps[n]) && tenant == ps[n].tenant
    modifies service`made, service`keys
    ensures service.Valid() && Rotating(first, service.keys, issued, ps, theirs)
    ensures service.made == old(service.made) + 1 && done == service.script(old(service.made)).Answers?
    ensures done ==> !Live(service.keys, id)
    ensures NoneAdded(old(service.keys), service.keys)
  {
    RotateStep(first, service.keys, issued, ps, theirs, n, id);
    NewKeysCover(first, Revoked(service.keys, id), issued, ps, theirs);
    var r := service.RevokeKey(id, tenant);
    done := r.Returned?;
  }

  // ----- all or nothing -----

  datatype Outcome =
    | Ready                          // stored, and every old key revoked
    | Failed                         // issuing or storing raised
    | RotationFailed                 // stored, but revoking an old key raised

  /** A provisioning whose call at this place was the first to fail gives the initial live keys back. */
  predicate GivesBack(script: Script, at: nat) {
    && !LeavesStray(script, at)
    && (at < 3 || (script(at).Raises? && RevokesAll(script, at + 1, at / 3)))
  }

  /** An ordinary exception is followed by the rollback, a cancellation by nothing. */
  method GiveUp(service: KeyService, cancelled: bool, issued: seq<Issued>, ghost first: Keys, ghost ps: seq<Persona>,
                ghost strays: set<nat>, ghost at: nat)
    requires service.Valid() && service.start == first && Extended(first, service.keys, issued, ps, strays)
    requires service.made == at + 1 && FirstFailure(service.script, at)
    requires |issued| == at / 3 && cancelled == service.script(at).Cancels?
    requires strays == {} <==> !LeavesStray(service.script, at)
    modifies service`made, service`keys
    ensures service.Valid()
    ensures Restored(first, service.keys) <==> GivesBack(service.script, at)
    ensures forall k: nat | FirstFailure(service.script, k) :: k == at
    ensures forall id | id in first :: id in service.keys && service.keys[id] == first[id]
  {
    ghost var undone := 0;
    if !cancelled {
      undone := RollBack(service, issued, first, ps, strays);
    }
    RestoredWhenUndone(first, service.keys, issued, ps, strays, undone);
  }

  /** The new keys are stored; the old ones go. */
  method Rotate(service: KeyService, issued: seq<Issued>, previous: seq<Previous>, ghost first: Keys,
                ghost ps: seq<Persona>)
    returns (done: bool)
    requires TenantsDistinct(ps) && service.Valid() && service.start == first && service.watched == ps
    requires |issued| == |previous| == |ps|
    requires Extended(first, service.keys, issued, ps, {}) && Remembered(first, previous, ps)
    modifies service`made, service`keys
    ensures service.Valid() && Untouched(first, service.keys, TheirKeys(ps))
    ensures RanInto(service.script, old(service.made), service.made, done)
    ensures forall i | 0 <= i < |ps| :: Lives(service.keys, issued[i].id, ps[i])
    ensures done ==> forall i, id | 0 <= i < |ps| && Lives(service.keys, id, ps[i]) :: id == issued[i].id
  {
    done := RevokePrevious(service, issued, previous, first, ps, TheirKeys(ps));
    if done {
      forall i, id | 0 <= i < |ps| && Lives(service.keys, id, ps[i]) ensures id == issued[i].id {
        OnlyTheNewLives(first, service.keys, issued, ps, TheirKeys(ps), i, id);
      }
    }
  }

  /** If every call up to the store answers and so do the revocations, every persona's live key is exactly
      the new one.  If one up to the store fails, the initial live keys are back exactly when the script says
      so: nothing had been issued, or an ordinary exception was raised and the rollback's revocations
      took effect.  The service is watched throughout, so at no moment is a persona that started with a
      live key without one. */
  method Provision(service: KeyService, ps: seq<Persona>) returns (outcome: Outcome, issued: seq<Issued>)
    requires TenantsDistinct(ps)
    requires service.Valid() && service.start == service.keys && service.watched == ps
    requires service.made == 0 && !service.stored
    modifies service
    ensures service.Valid()
    ensures outcome.Ready? ==> && |issued| == |ps| && service.stored
                               && forall i, id | 0 <= i < |ps| :: Lives(service.keys, id, ps[i]) <==> id == issued[i].id
    ensures !outcome.Failed? ==> && Untouched(old(service.keys), service.keys, TheirKeys(ps))
                                 && RanInto(service.script, 0, service.made, outcome.Ready?)
                                 && service.made > 3 * |ps|
    ensures outcome.RotationFailed? ==> && |issued| == |ps| && service.stored && service.made > 3 * |ps| + 1
                                        && forall i | 0 <= i < |ps| :: Lives(service.keys, issued[i].id, ps[i])
    ensures outcome.Failed? <==> !Answered(service.script, 0, 3 * |ps| + 1)
    ensures forall at: nat | at <= 3 * |ps| && FirstFailure(service.script, at) ::
              && (Restored(old(service.keys), service.keys) <==> GivesBack(service.script, at))
              && (service.stored <==> at == 3 * |ps| && TakesEffect(service.script(at)))
    ensures outcome.Failed? ==>
              forall id | id in old(service.keys) :: id in service.keys && service.keys[id] == old(service.keys)[id]
  {
    var failure, previous;
    ghost var strays;
    failure, issued, previous, strays := IssueAll(service, ps);
    if failure.Raised? {
      GiveUp(service, failure.cancelled, issued, old(service.keys), ps, strays, service.made - 1);
      return Failed, issued;
    }
    var store := service.Store();
    if store.Raised? {
      GiveUp(service, store.cancelled, issued, old(service.keys), ps, strays, service.made - 1);
      return Failed, issued;
    }
    var done := Rotate(service, issued, previous, old(service.keys), ps);
    return if done then Ready else RotationFailed, issued;
  }

  /** A service that starts without any key: a cancellation thrown into the second persona's first call makes
      the provisioning fail, and leaves the first persona's new key alive. */
  method CancelledProvision(ps: seq<Persona>) returns (service: KeyService, outcome: Outcome)
    requires TenantsDistinct(ps) && |ps| >= 2
    ensures service.start == map[] && outcome.Failed? && !service.stored
    ensures !Restored(service.start, service.keys) && exists id :: Live(service.keys, id)
  {
    var script: Script := k => if k == 3 then Cancels(false) else Answers;
    service := new KeyService(map[], script, ps);
    assert FirstFailure(script, 3) && !GivesBack(script, 3);
    var issued;
    outcome, issued := Provision(service, ps);
  }
}
