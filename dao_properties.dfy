/** What JamesDao's compound operations do to the server. The reconciling
    updates converge on the desired list, after which reconciling again adds
    and removes nothing; they touch only the user they are for; they send their
    two phases in the order the source joins them with `&&`; and forwards are
    only ever added. */
module DaoProperties {
  import opened Outcomes
  import opened Sequences
  import opened Reconcile
  import opened Beans
  import opened Remote
  import opened DaoModel

  /** A list with no members is empty. */
  lemma NoMembers<T>(s: seq<T>)
    ensures Members(s) == {} <==> s == []
  {
    if s != [] {
      assert s[0] in Members(s);
    }
  }

  // ----- request kinds and the order of requests -----

  function AliasCreationRequest(email: string): Alias -> Call {
    a => PutAlias(email, a)
  }

  function AliasDeletionRequest(email: string): Alias -> Call {
    a => DeleteAlias(email, a)
  }

  function MappingCreationRequest(email: string): AddressMapping -> Call {
    m => PostMapping(email, m)
  }

  function MappingDeletionRequest(email: string): AddressMapping -> Call {
    m => DeleteMapping(email, m)
  }

  function ForwardCreationRequest(email: string): Forward -> Call {
    f => PutForward(email, f)
  }

  function IsAliasCreationFor(email: string): Call -> bool {
    (c: Call) => c.PutAlias? && c.user == email
  }

  function IsAliasDeletionFor(email: string): Call -> bool {
    (c: Call) => c.DeleteAlias? && c.user == email
  }

  function IsMappingCreationFor(email: string): Call -> bool {
    (c: Call) => c.PostMapping? && c.user == email
  }

  function IsMappingDeletionFor(email: string): Call -> bool {
    (c: Call) => c.DeleteMapping? && c.user == email
  }

  /** `after` extends `before` with requests that all satisfy `kind`. */
  ghost predicate AppendsOnly(before: seq<Call>, after: seq<Call>, kind: Call -> bool) {
    |before| <= |after| && after[..|before|] == before &&
    forall i | |before| <= i < |after| :: kind(after[i])
  }

  /** `after` extends `before` with requests of kind `first`, followed by requests of kind `second`. */
  ghost predicate InPhases(before: seq<Call>, after: seq<Call>, first: Call -> bool, second: Call -> bool) {
    |before| <= |after| && after[..|before|] == before &&
    (forall i | |before| <= i < |after| :: first(after[i]) || second(after[i])) &&
    (forall i, j | |before| <= i < j < |after| :: second(after[i]) ==> !first(after[j]))
  }

  lemma AppendsOnlyStep(before: seq<Call>, mid: seq<Call>, c: Call, kind: Call -> bool)
    requires AppendsOnly(before, mid, kind) && kind(c)
    ensures AppendsOnly(before, mid + [c], kind)
  {
    assert (mid + [c])[..|before|] == mid[..|before|];
  }

  lemma PhasesJoin(before: seq<Call>, mid: seq<Call>, after: seq<Call>, first: Call -> bool, second: Call -> bool)
    requires AppendsOnly(before, mid, first) && AppendsOnly(mid, after, second)
    requires forall c :: !(first(c) && second(c))
    ensures InPhases(before, after, first, second)
  {
    assert after[..|before|] == after[..|mid|][..|before|];
    forall i | |before| <= i < |mid|
      ensures first(after[i])
    {
      assert after[i] == after[..|mid|][i];
    }
  }

  /** The requests a fold of `write` over `items` sends all satisfy `kind`,
      when each write sends at most its own request, which satisfies `kind`. */
  lemma FoldSendsOnly<T>(s: ServerState, items: seq<T>, write: (ServerState, T) -> DaoStep<bool>,
                         request: T -> Call, kind: Call -> bool)
    requires forall x | x in items :: kind(request(x))
    requires forall b, x | x in items :: write(b, x).state.log == b.log || write(b, x).state.log == b.log + [request(x)]
    ensures AppendsOnly(s.log, Fold(s, items, write).state.log, kind)
  {
    var within := (o: ServerState, b: ServerState) => AppendsOnly(o.log, b.log, kind);
    forall b, x | x in items && within(s, b)
      ensures within(s, write(b, x).state)
    {
      if write(b, x).state.log != b.log {
        AppendsOnlyStep(s.log, b.log, request(x), kind);
      }
    }
    assert s.log[..|s.log|] == s.log;
    FoldWithin(s, s, items, write, within);
  }

  // ----- aliases -----

  lemma OnlyAliasesOfChains(a: ServerState, b: ServerState, c: ServerState, email: string)
    requires OnlyAliasesOf(a, b, email) && OnlyAliasesOf(b, c, email)
    ensures OnlyAliasesOf(a, c, email)
  {
  }

  /** Every alias fold touches only the user it writes for. */
  lemma AliasFoldsTouchOnlyTheUser(fault: Fault, encode: Encoder, origin: ServerState, s: ServerState, user: User, items: seq<Alias>)
    requires OnlyAliasesOf(origin, s, user.email)
    ensures OnlyAliasesOf(origin, CreateAliases(fault, encode, s, user, items).state, user.email)
    ensures OnlyAliasesOf(origin, RemoveAliases(fault, encode, s, user, items).state, user.email)
  {
    var within := (o: ServerState, b: ServerState) => OnlyAliasesOf(o, b, user.email);
    forall b, x | OnlyAliasesOf(origin, b, user.email)
      ensures OnlyAliasesOf(origin, CreateAlias(fault, encode, b, user, x).state, user.email)
      ensures OnlyAliasesOf(origin, RemoveAlias(fault, encode, b, user, x).state, user.email)
    {
      OnlyAliasesOfChains(origin, b, CreateAlias(fault, encode, b, user, x).state, user.email);
      OnlyAliasesOfChains(origin, b, RemoveAlias(fault, encode, b, user, x).state, user.email);
    }
    FoldWithin(origin, s, items, AliasCreation(fault, encode, user), within);
    FoldWithin(origin, s, items, AliasRemoval(fault, encode, user), within);
  }

  /** `createAliases`: a successful run adds every listed alias, whose
      requests were sent one per alias in list order; any run touches only that user. */
  lemma CreateAliasesAdds(fault: Fault, encode: Encoder, t: ServerState, user: User, aliasesToAdd: seq<Alias>)
    ensures var r := CreateAliases(fault, encode, t, user, aliasesToAdd);
            OnlyAliasesOf(t, r.state, user.email) &&
            (r.out == Value(true) ==>
               Members(Lookup(r.state.aliases, user.email)) == Members(Lookup(t.aliases, user.email)) + Members(aliasesToAdd) &&
               r.state.log == t.log + MapSeq(AliasCreationRequest(user.email), aliasesToAdd))
  {
    AliasFoldsTouchOnlyTheUser(fault, encode, t, t, user, aliasesToAdd);
    FoldAdds(t, aliasesToAdd, AliasCreation(fault, encode, user), (s: ServerState) => Members(Lookup(s.aliases, user.email)));
    FoldRecordsInOrder(t, aliasesToAdd, AliasCreation(fault, encode, user), (s: ServerState) => s.log, AliasCreationRequest(user.email));
  }

  /** The set of a user's aliases in a server state. */
  function HeldAliases(email: string): ServerState -> set<Alias> {
    (s: ServerState) => Members(Lookup(s.aliases, email))
  }

  /** A successful alias write adds, or removes, exactly its own alias. */
  lemma AliasWritesMoveOne(fault: Fault, encode: Encoder, user: User)
    ensures forall s', x :: AliasCreation(fault, encode, user)(s', x).out == Value(true) ==>
              HeldAliases(user.email)(AliasCreation(fault, encode, user)(s', x).state) == HeldAliases(user.email)(s') + {x}
    ensures forall s', x :: AliasRemoval(fault, encode, user)(s', x).out == Value(true) ==>
              HeldAliases(user.email)(AliasRemoval(fault, encode, user)(s', x).state) == HeldAliases(user.email)(s') - {x}
  {
  }

  /** Removing what `desired` drops from `held` and then creating what it adds
      leaves exactly `desired`, when both phases succeed. */
  lemma AliasPhasesReconcile(fault: Fault, encode: Encoder, user: User, s: ServerState, held: seq<Alias>, desired: seq<Alias>)
    requires HeldAliases(user.email)(s) == Members(held)
    ensures var removal := RemoveAliases(fault, encode, s, user, ComputeToRemove(desired, held));
            var creation := CreateAliases(fault, encode, removal.state, user, ComputeToAdd(desired, held));
            removal.out == Value(true) && creation.out == Value(true) ==>
              HeldAliases(user.email)(creation.state) == Members(desired)
  {
    var view := HeldAliases(user.email);
    var toRemove := ComputeToRemove(desired, held);
    var toAdd := ComputeToAdd(desired, held);
    AliasWritesMoveOne(fault, encode, user);
    FoldDrops(s, toRemove, AliasRemoval(fault, encode, user), view);
    var removal := RemoveAliases(fault, encode, s, user, toRemove);
    FoldAdds(removal.state, toAdd, AliasCreation(fault, encode, user), view);
    ComputedMembers(desired, held);
    ReconciledMembers(Members(held), Members(desired), Members(toAdd), Members(toRemove));
  }

  /** After a successful `updateAliases` the user holds exactly the desired
      aliases, so reconciling again would add and remove nothing. */
  lemma UpdateAliasesConverges(fault: Fault, encode: Encoder, t: ServerState, user: User, updatedAliases: seq<Alias>)
    ensures var r := UpdateAliases(fault, encode, t, user, updatedAliases);
            var held := Lookup(r.state.aliases, user.email);
            r.out == Value(true) ==>
              Members(held) == Members(updatedAliases) &&
              ComputeToAdd(updatedAliases, held) == [] && ComputeToRemove(updatedAliases, held) == []
  {
    var current := GetAliases(fault, t, user.email);
    if current.out.Value? {
      AliasPhasesReconcile(fault, encode, user, current.state, current.out.value, updatedAliases);
      var r := UpdateAliases(fault, encode, t, user, updatedAliases);
      if r.out == Value(true) {
        NothingToReconcile(updatedAliases, Lookup(r.state.aliases, user.email));
      }
    }
  }

  /** `updateAliases` touches only the user it updates, whatever its outcome. */
  lemma UpdateAliasesTouchesOnlyTheUser(fault: Fault, encode: Encoder, t: ServerState, user: User, updatedAliases: seq<Alias>)
    ensures OnlyAliasesOf(t, UpdateAliases(fault, encode, t, user, updatedAliases).state, user.email)
  {
    var current := GetAliases(fault, t, user.email);
    if current.out.Value? {
      var toRemove := ComputeToRemove(updatedAliases, current.out.value);
      AliasFoldsTouchOnlyTheUser(fault, encode, t, current.state, user, toRemove);
      var removal := RemoveAliases(fault, encode, current.state, user, toRemove);
      AliasFoldsTouchOnlyTheUser(fault, encode, t, removal.state, user, ComputeToAdd(updatedAliases, current.out.value));
    }
  }

  /** `updateAliases` sends, after its read, its removals and then its creations. */
  lemma UpdateAliasesRemovesFirst(fault: Fault, encode: Encoder, t: ServerState, user: User, updatedAliases: seq<Alias>)
    ensures InPhases(t.log + [ListAliases(user.email)], UpdateAliases(fault, encode, t, user, updatedAliases).state.log,
                     IsAliasDeletionFor(user.email), IsAliasCreationFor(user.email))
  {
    var e := user.email;
    var start := t.log + [ListAliases(e)];
    var current := GetAliases(fault, t, e);
    var r := UpdateAliases(fault, encode, t, user, updatedAliases);
    assert start[..|start|] == start;
    if current.out.Value? {
      var toRemove := ComputeToRemove(updatedAliases, current.out.value);
      FoldSendsOnly(current.state, toRemove, AliasRemoval(fault, encode, user), AliasDeletionRequest(e), IsAliasDeletionFor(e));
      var removal := RemoveAliases(fault, encode, current.state, user, toRemove);
      if removal.out == Value(true) {
        var toAdd := ComputeToAdd(updatedAliases, current.out.value);
        FoldSendsOnly(removal.state, toAdd, AliasCreation(fault, encode, user), AliasCreationRequest(e), IsAliasCreationFor(e));
      } else {
        assert removal.state.log[..|removal.state.log|] == removal.state.log;
      }
      PhasesJoin(start, removal.state.log, r.state.log, IsAliasDeletionFor(e), IsAliasCreationFor(e));
    }
  }

  /** When `log` holds an alias creation after `start`, it continues `start` with exactly `first`. */
  ghost predicate CreatesOnlyAfter(start: seq<Call>, log: seq<Call>, first: seq<Call>) {
    (exists i | |start| <= i < |log| :: log[i].PutAlias?) ==>
      |start| + |first| <= |log| && log[..|start| + |first|] == start + first
  }

  /** `updateAliases` creates nothing unless every surplus alias was first
      deleted, one request each, in the server's order. */
  lemma UpdateAliasesCreatesOnlyAfterRemovals(fault: Fault, encode: Encoder, t: ServerState, user: User, updatedAliases: seq<Alias>)
    ensures var r := UpdateAliases(fault, encode, t, user, updatedAliases);
            CreatesOnlyAfter(t.log + [ListAliases(user.email)], r.state.log,
                             MapSeq(AliasDeletionRequest(user.email), ComputeToRemove(updatedAliases, Lookup(t.aliases, user.email))))
  {
    var current := GetAliases(fault, t, user.email);
    if current.out.Value? {
      var toRemove := ComputeToRemove(updatedAliases, current.out.value);
      var removal := RemoveAliases(fault, encode, current.state, user, toRemove);
      if removal.out == Value(true) {
        RemovalsLoggedBeforeCreations(fault, encode, current.state, user, toRemove, ComputeToAdd(updatedAliases, current.out.value));
      } else {
        FailedRemovalsCreateNothing(fault, encode, current.state, user, toRemove);
      }
    }
  }

  /** Once every removal succeeded, the log starts with them, in order, whatever the creations add. */
  lemma RemovalsLoggedBeforeCreations(fault: Fault, encode: Encoder, s: ServerState, user: User, toRemove: seq<Alias>, toAdd: seq<Alias>)
    requires RemoveAliases(fault, encode, s, user, toRemove).out == Value(true)
    ensures var removal := RemoveAliases(fault, encode, s, user, toRemove);
            var log := CreateAliases(fault, encode, removal.state, user, toAdd).state.log;
            var prefix := s.log + MapSeq(AliasDeletionRequest(user.email), toRemove);
            |prefix| <= |log| && log[..|prefix|] == prefix
  {
    var e := user.email;
    var removal := RemoveAliases(fault, encode, s, user, toRemove);
    FoldRecordsInOrder(s, toRemove, AliasRemoval(fault, encode, user), (b: ServerState) => b.log, AliasDeletionRequest(e));
    FoldSendsOnly(removal.state, toAdd, AliasCreation(fault, encode, user), AliasCreationRequest(e), IsAliasCreationFor(e));
  }

  /** Removals that fail leave a log of removal requests only. */
  lemma FailedRemovalsCreateNothing(fault: Fault, encode: Encoder, s: ServerState, user: User, toRemove: seq<Alias>)
    ensures var log := RemoveAliases(fault, encode, s, user, toRemove).state.log;
            forall i | |s.log| <= i < |log| :: !log[i].PutAlias?
  {
    var e := user.email;
    var log := RemoveAliases(fault, encode, s, user, toRemove).state.log;
    FoldSendsOnly(s, toRemove, AliasRemoval(fault, encode, user), AliasDeletionRequest(e), IsAliasDeletionFor(e));
    forall i | |s.log| <= i < |log|
      ensures !log[i].PutAlias?
    {
      assert IsAliasDeletionFor(e)(log[i]);
    }
  }

  /** `deleteAlias`: success leaves the user without aliases; any outcome touches only that user. */
  lemma DeleteAliasesEmpties(fault: Fault, encode: Encoder, t: ServerState, user: User)
    ensures var r := DeleteAliases(fault, encode, t, user);
            OnlyAliasesOf(t, r.state, user.email) &&
            (r.out == Value(true) ==> Lookup(r.state.aliases, user.email) == [])
  {
    var current := GetAliases(fault, t, user.email);
    if current.out.Value? {
      var held := current.out.value;
      AliasFoldsTouchOnlyTheUser(fault, encode, t, current.state, user, held);
      FoldDrops(current.state, held, AliasRemoval(fault, encode, user), (s: ServerState) => Members(Lookup(s.aliases, user.email)));
      var r := DeleteAliases(fault, encode, t, user);
      NoMembers(Lookup(r.state.aliases, user.email));
    }
  }

  /** Under a faultless server and an encoder that never fails, `updateAliases`
      succeeds exactly when the user already has an alias; otherwise its read
      answers NotFound. */
  lemma UpdateAliasesFaultless(fault: Fault, encode: Encoder, t: ServerState, user: User, updatedAliases: seq<Alias>)
    requires Faultless(fault) && EncodesEverything(encode)
    ensures UpdateAliases(fault, encode, t, user, updatedAliases).out ==
            if Lookup(t.aliases, user.email) == [] then Thrown(NotFound) else Value(true)
  {
    forall b: ServerState, c: Call {
      FaultlessRepliesNaturally(fault, b, c);
    }
    var current := GetAliases(fault, t, user.email);
    if current.out.Value? {
      FoldSucceeds(current.state, ComputeToRemove(updatedAliases, current.out.value), AliasRemoval(fault, encode, user));
      var removal := RemoveAliases(fault, encode, current.state, user, ComputeToRemove(updatedAliases, current.out.value));
      FoldSucceeds(removal.state, ComputeToAdd(updatedAliases, current.out.value), AliasCreation(fault, encode, user));
    }
  }

  // ----- address mappings -----

  /** What the two phases of a reconciliation add and remove, as sets. */
  lemma ComputedMembers<T(!new)>(desired: seq<T>, held: seq<T>)
    ensures Members(ComputeToAdd(desired, held)) == Members(desired) - Members(held)
    ensures Members(ComputeToRemove(desired, held)) == Members(held) - Members(desired)
  {
  }

  /** Adding what is missing and then removing the surplus yields the desired set. */
  lemma ReconciledMembers<T>(held: set<T>, desired: set<T>, added: set<T>, removed: set<T>)
    requires added == desired - held && removed == held - desired
    ensures held + added - removed == desired
  {
  }

  lemma OnlyMappingsOfChains(a: ServerState, b: ServerState, c: ServerState, email: string)
    requires OnlyMappingsOf(a, b, email) && OnlyMappingsOf(b, c, email)
    ensures OnlyMappingsOf(a, c, email)
  {
  }

  /** Every address-mapping fold touches only the user it writes for. */
  lemma MappingFoldsTouchOnlyTheUser(fault: Fault, origin: ServerState, s: ServerState, user: User, items: seq<AddressMapping>)
    requires OnlyMappingsOf(origin, s, user.email)
    ensures OnlyMappingsOf(origin, CreateAddressMappings(fault, s, user, items).state, user.email)
    ensures OnlyMappingsOf(origin, RemoveAddressMappingsIn(fault, s, user, items).state, user.email)
  {
    var within := (o: ServerState, b: ServerState) => OnlyMappingsOf(o, b, user.email);
    forall b, x | OnlyMappingsOf(origin, b, user.email)
      ensures OnlyMappingsOf(origin, CreateAddressMapping(fault, b, user, x).state, user.email)
      ensures OnlyMappingsOf(origin, RemoveAddressMapping(fault, b, user, x).state, user.email)
    {
      OnlyMappingsOfChains(origin, b, CreateAddressMapping(fault, b, user, x).state, user.email);
      OnlyMappingsOfChains(origin, b, RemoveAddressMapping(fault, b, user, x).state, user.email);
    }
    FoldWithin(origin, s, items, MappingCreation(fault, user), within);
    FoldWithin(origin, s, items, MappingRemoval(fault, user), within);
  }

  /** The set of a user's "Address" mappings in a server state. */
  function HeldMappings(email: string): ServerState -> set<AddressMapping> {
    (s: ServerState) => Members(AddressMappingsOf(Lookup(s.mappings, email)))
  }

  /** A successful mapping write adds, or removes, exactly its own mapping. */
  lemma MappingWritesMoveOne(fault: Fault, user: User)
    ensures forall s', x :: MappingCreation(fault, user)(s', x).out == Value(true) ==>
              HeldMappings(user.email)(MappingCreation(fault, user)(s', x).state) == HeldMappings(user.email)(s') + {x}
    ensures forall s', x :: MappingRemoval(fault, user)(s', x).out == Value(true) ==>
              HeldMappings(user.email)(MappingRemoval(fault, user)(s', x).state) == HeldMappings(user.email)(s') - {x}
  {
  }

  /** Creating what `desired` adds to `held` and then removing what it drops
      leaves exactly `desired`, when both phases succeed. */
  lemma MappingPhasesReconcile(fault: Fault, user: User, s: ServerState, held: seq<AddressMapping>, desired: seq<AddressMapping>)
    requires HeldMappings(user.email)(s) == Members(held)
    ensures var creation := CreateAddressMappings(fault, s, user, ComputeToAdd(desired, held));
            var removal := RemoveAddressMappingsIn(fault, creation.state, user, ComputeToRemove(desired, held));
            creation.out == Value(true) && removal.out == Value(true) ==>
              HeldMappings(user.email)(removal.state) == Members(desired)
  {
    var view := HeldMappings(user.email);
    var toAdd := ComputeToAdd(desired, held);
    var toRemove := ComputeToRemove(desired, held);
    MappingWritesMoveOne(fault, user);
    FoldAdds(s, toAdd, MappingCreation(fault, user), view);
    var creation := CreateAddressMappings(fault, s, user, toAdd);
    FoldDrops(creation.state, toRemove, MappingRemoval(fault, user), view);
    ComputedMembers(desired, held);
    ReconciledMembers(Members(held), Members(desired), Members(toAdd), Members(toRemove));
  }

  /** Two lists with the same members leave nothing to add or remove. */
  lemma NothingToReconcile<T(!new)>(desired: seq<T>, held: seq<T>)
    requires Members(held) == Members(desired)
    ensures ComputeToAdd(desired, held) == [] && ComputeToRemove(desired, held) == []
  {
    MissingEmpty(desired, held);
    MissingEmpty(held, desired);
  }

  /** After a successful `updateAddressMappings` the user's "Address" mappings
      are exactly the desired ones, so reconciling again would add and remove nothing. */
  lemma UpdateAddressMappingsConverges(fault: Fault, t: ServerState, user: User, ldapMappings: seq<AddressMapping>)
    ensures var r := UpdateAddressMappings(fault, t, user, ldapMappings);
            var held := AddressMappingsOf(Lookup(r.state.mappings, user.email));
            r.out == Value(true) ==>
              Members(held) == Members(ldapMappings) &&
              ComputeToAdd(ldapMappings, held) == [] && ComputeToRemove(ldapMappings, held) == []
  {
    var current := GetAddressMappings(fault, t, user.email);
    if current.out.Value? {
      MappingPhasesReconcile(fault, user, current.state, current.out.value, ldapMappings);
      var r := UpdateAddressMappings(fault, t, user, ldapMappings);
      if r.out == Value(true) {
        NothingToReconcile(ldapMappings, AddressMappingsOf(Lookup(r.state.mappings, user.email)));
      }
    }
  }

  /** `updateAddressMappings` touches only the user it updates, whatever its outcome. */
  lemma UpdateAddressMappingsTouchesOnlyTheUser(fault: Fault, t: ServerState, user: User, ldapMappings: seq<AddressMapping>)
    ensures OnlyMappingsOf(t, UpdateAddressMappings(fault, t, user, ldapMappings).state, user.email)
  {
    var current := GetAddressMappings(fault, t, user.email);
    if current.out.Value? {
      var toAdd := ComputeToAdd(ldapMappings, current.out.value);
      MappingFoldsTouchOnlyTheUser(fault, t, current.state, user, toAdd);
      var creation := CreateAddressMappings(fault, current.state, user, toAdd);
      MappingFoldsTouchOnlyTheUser(fault, t, creation.state, user, ComputeToRemove(ldapMappings, current.out.value));
    }
  }

  /** `updateAddressMappings` sends, after its read, its creations and then its removals. */
  lemma UpdateAddressMappingsCreatesFirst(fault: Fault, t: ServerState, user: User, ldapMappings: seq<AddressMapping>)
    ensures InPhases(t.log + [ListMappings(user.email)], UpdateAddressMappings(fault, t, user, ldapMappings).state.log,
                     IsMappingCreationFor(user.email), IsMappingDeletionFor(user.email))
  {
    var e := user.email;
    var start := t.log + [ListMappings(e)];
    var current := GetAddressMappings(fault, t, e);
    var r := UpdateAddressMappings(fault, t, user, ldapMappings);
    assert start[..|start|] == start;
    if current.out.Value? {
      var toAdd := ComputeToAdd(ldapMappings, current.out.value);
      FoldSendsOnly(current.state, toAdd, MappingCreation(fault, user), MappingCreationRequest(e), IsMappingCreationFor(e));
      var creation := CreateAddressMappings(fault, current.state, user, toAdd);
      if creation.out == Value(true) {
        var toRemove := ComputeToRemove(ldapMappings, current.out.value);
        FoldSendsOnly(creation.state, toRemove, MappingRemoval(fault, user), MappingDeletionRequest(e), IsMappingDeletionFor(e));
      } else {
        assert creation.state.log[..|creation.state.log|] == creation.state.log;
      }
      PhasesJoin(start, creation.state.log, r.state.log, IsMappingCreationFor(e), IsMappingDeletionFor(e));
    }
  }

  /** When `log` holds a mapping deletion after `start`, it continues `start` with exactly `first`. */
  ghost predicate DeletesOnlyAfter(start: seq<Call>, log: seq<Call>, first: seq<Call>) {
    (exists i | |start| <= i < |log| :: log[i].DeleteMapping?) ==>
      |start| + |first| <= |log| && log[..|start| + |first|] == start + first
  }

  /** Creations followed, on success, by removals: a removal request is only
      ever sent after every creation request, in list order. */
  lemma MappingPhasesLog(fault: Fault, user: User, s: ServerState, toAdd: seq<AddressMapping>, toRemove: seq<AddressMapping>)
    ensures var creation := CreateAddressMappings(fault, s, user, toAdd);
            var after := if creation.out == Value(true) then RemoveAddressMappingsIn(fault, creation.state, user, toRemove) else creation;
            DeletesOnlyAfter(s.log, after.state.log, MapSeq(MappingCreationRequest(user.email), toAdd))
  {
    var e := user.email;
    var creation := CreateAddressMappings(fault, s, user, toAdd);
    FoldSendsOnly(s, toAdd, MappingCreation(fault, user), MappingCreationRequest(e), IsMappingCreationFor(e));
    if creation.out == Value(true) {
      FoldSendsOnly(creation.state, toRemove, MappingRemoval(fault, user), MappingDeletionRequest(e), IsMappingDeletionFor(e));
      FoldRecordsInOrder(s, toAdd, MappingCreation(fault, user), (s: ServerState) => s.log, MappingCreationRequest(e));
      var after := RemoveAddressMappingsIn(fault, creation.state, user, toRemove);
      assert after.state.log[..|creation.state.log|] == creation.state.log;
    } else {
      forall i | |s.log| <= i < |creation.state.log|
        ensures !creation.state.log[i].DeleteMapping?
      {
        assert IsMappingCreationFor(e)(creation.state.log[i]);
      }
    }
  }

  /** `updateAddressMappings` removes nothing unless every missing mapping was
      first created, one request each, in the desired order. */
  lemma UpdateAddressMappingsRemovesOnlyAfterCreations(fault: Fault, t: ServerState, user: User, ldapMappings: seq<AddressMapping>)
    ensures var r := UpdateAddressMappings(fault, t, user, ldapMappings);
            DeletesOnlyAfter(t.log + [ListMappings(user.email)], r.state.log,
                             MapSeq(MappingCreationRequest(user.email), ComputeToAdd(ldapMappings, AddressMappingsOf(Lookup(t.mappings, user.email)))))
  {
    var current := GetAddressMappings(fault, t, user.email);
    if current.out.Value? {
      var held := current.out.value;
      MappingPhasesLog(fault, user, current.state, ComputeToAdd(ldapMappings, held), ComputeToRemove(ldapMappings, held));
    }
  }

  /** Under a faultless server `updateAddressMappings` always succeeds, even for
      a user with no mappings, and leaves the desired mappings. */
  lemma UpdateAddressMappingsFaultless(fault: Fault, t: ServerState, user: User, ldapMappings: seq<AddressMapping>)
    requires Faultless(fault)
    ensures var r := UpdateAddressMappings(fault, t, user, ldapMappings);
            r.out == Value(true) && Members(AddressMappingsOf(Lookup(r.state.mappings, user.email))) == Members(ldapMappings)
  {
    forall b: ServerState, c: Call {
      FaultlessRepliesNaturally(fault, b, c);
    }
    var current := GetAddressMappings(fault, t, user.email);
    var toAdd := ComputeToAdd(ldapMappings, current.out.value);
    FoldSucceeds(current.state, toAdd, MappingCreation(fault, user));
    var creation := CreateAddressMappings(fault, current.state, user, toAdd);
    FoldSucceeds(creation.state, ComputeToRemove(ldapMappings, current.out.value), MappingRemoval(fault, user));
    UpdateAddressMappingsConverges(fault, t, user, ldapMappings);
  }

  /** The one-argument `removeAddressMappings`: success leaves the user without
      "Address" mappings; any outcome touches only that user. */
  lemma RemoveAddressMappingsEmpties(fault: Fault, t: ServerState, user: User)
    ensures var r := RemoveAddressMappings(fault, t, user);
            OnlyMappingsOf(t, r.state, user.email) &&
            (r.out == Value(true) ==> AddressMappingsOf(Lookup(r.state.mappings, user.email)) == [])
  {
    var current := GetAddressMappings(fault, t, user.email);
    if current.out.Value? {
      var held := current.out.value;
      MappingFoldsTouchOnlyTheUser(fault, t, current.state, user, held);
      FoldDrops(current.state, held, MappingRemoval(fault, user), (s: ServerState) => Members(AddressMappingsOf(Lookup(s.mappings, user.email))));
      var r := RemoveAddressMappings(fault, t, user);
      NoMembers(AddressMappingsOf(Lookup(r.state.mappings, user.email)));
    }
  }

  // ----- forwards -----

  lemma OnlyForwardsOfChains(a: ServerState, b: ServerState, c: ServerState, email: string)
    requires OnlyForwardsOf(a, b, email) && OnlyForwardsOf(b, c, email)
    ensures OnlyForwardsOf(a, c, email)
  {
  }

  /** Every forward fold touches only the user it writes for. */
  lemma ForwardFoldsTouchOnlyTheUser(fault: Fault, encode: Encoder, origin: ServerState, s: ServerState, user: User, items: seq<Forward>)
    requires OnlyForwardsOf(origin, s, user.email)
    ensures OnlyForwardsOf(origin, CreateForwards(fault, encode, s, user, items).state, user.email)
    ensures OnlyForwardsOf(origin, DeleteForwardsIn(fault, encode, s, user, items).state, user.email)
  {
    var within := (o: ServerState, b: ServerState) => OnlyForwardsOf(o, b, user.email);
    forall b, x | OnlyForwardsOf(origin, b, user.email)
      ensures OnlyForwardsOf(origin, CreateForward(fault, encode, b, user, x).state, user.email)
      ensures OnlyForwardsOf(origin, DaoModel.DeleteForward(fault, encode, b, user, x).state, user.email)
    {
      OnlyForwardsOfChains(origin, b, CreateForward(fault, encode, b, user, x).state, user.email);
      OnlyForwardsOfChains(origin, b, DaoModel.DeleteForward(fault, encode, b, user, x).state, user.email);
    }
    FoldWithin(origin, s, items, ForwardCreation(fault, encode, user), within);
    FoldWithin(origin, s, items, ForwardDeletion(fault, encode, user), within);
  }

  /** `createForwards`: a successful run adds every listed forward, one request
      each in list order; any run touches only that user and removes nothing. */
  lemma CreateForwardsAdds(fault: Fault, encode: Encoder, t: ServerState, user: User, forwardsToAdd: seq<Forward>)
    ensures var r := CreateForwards(fault, encode, t, user, forwardsToAdd);
            OnlyForwardsOf(t, r.state, user.email) &&
            Members(Lookup(t.forwards, user.email)) <= Members(Lookup(r.state.forwards, user.email)) &&
            (r.out == Value(true) ==>
               Members(Lookup(r.state.forwards, user.email)) == Members(Lookup(t.forwards, user.email)) + Members(forwardsToAdd) &&
               r.state.log == t.log + MapSeq(ForwardCreationRequest(user.email), forwardsToAdd))
  {
    var e := user.email;
    ForwardFoldsTouchOnlyTheUser(fault, encode, t, t, user, forwardsToAdd);
    var grows := (o: ServerState, b: ServerState) => Members(Lookup(o.forwards, e)) <= Members(Lookup(b.forwards, e));
    FoldWithin(t, t, forwardsToAdd, ForwardCreation(fault, encode, user), grows);
    FoldAdds(t, forwardsToAdd, ForwardCreation(fault, encode, user), (s: ServerState) => Members(Lookup(s.forwards, e)));
    FoldRecordsInOrder(t, forwardsToAdd, ForwardCreation(fault, encode, user), (s: ServerState) => s.log, ForwardCreationRequest(e));
  }

  /** The set of a user's forwards in a server state. */
  function HeldForwards(email: string): ServerState -> set<Forward> {
    (s: ServerState) => Members(Lookup(s.forwards, email))
  }

  /** Creating forwards keeps every forward held and adds only listed ones. */
  lemma ForwardCreationsOnlyAdd(fault: Fault, encode: Encoder, user: User, s: ServerState, toAdd: seq<Forward>)
    ensures var r := CreateForwards(fault, encode, s, user, toAdd);
            HeldForwards(user.email)(s) <= HeldForwards(user.email)(r.state) &&
            HeldForwards(user.email)(r.state) <= HeldForwards(user.email)(s) + Members(toAdd)
  {
    var view := HeldForwards(user.email);
    var within := (o: ServerState, b: ServerState) => view(o) <= view(b) && view(b) <= view(o) + Members(toAdd);
    forall b, x | x in toAdd && within(s, b)
      ensures within(s, CreateForward(fault, encode, b, user, x).state)
    {
    }
    FoldWithin(s, s, toAdd, ForwardCreation(fault, encode, user), within);
  }

  /** `updateForwards` never removes a forward, touches only its user, and every
      forward it adds is a desired one that may be synchronised (so, unless local
      copies are allowed, never one to the user's own address). */
  lemma UpdateForwardsOnlyAdds(fault: Fault, encode: Encoder, t: ServerState, user: User, ldapForwards: seq<Forward>, allow: bool)
    ensures var r := UpdateForwards(fault, encode, t, user, ldapForwards, allow);
            var before := Lookup(t.forwards, user.email);
            var after := Lookup(r.state.forwards, user.email);
            OnlyForwardsOf(t, r.state, user.email) && Members(before) <= Members(after) &&
            (forall f | f in after :: f in before || (f in ldapForwards && SynchronizeLocalCopyForwards(f, user.email, allow)))
  {
    var e := user.email;
    var current := GetForwards(fault, t, e);
    var r := UpdateForwards(fault, encode, t, user, ldapForwards, allow);
    if current.out.Value? {
      var toAdd := ComputeForwardsToAdd(user, ldapForwards, current.out.value, allow);
      ForwardFoldsTouchOnlyTheUser(fault, encode, t, current.state, user, toAdd);
      ForwardCreationsOnlyAdd(fault, encode, user, current.state, toAdd);
      assert r == CreateForwards(fault, encode, current.state, user, toAdd);
      var before := Lookup(t.forwards, e);
      var after := Lookup(r.state.forwards, e);
      assert HeldForwards(e)(current.state) == Members(before);
      assert HeldForwards(e)(r.state) == Members(after);
      forall f | f in after
        ensures f in before || (f in ldapForwards && SynchronizeLocalCopyForwards(f, e, allow))
      {
        assert f in Members(before) + Members(toAdd);
      }
    }
  }

  /** After a successful `updateForwards` the user's forwards are those held
      before together with the desired ones that may be synchronised. */
  lemma UpdateForwardsAddsTheMissing(fault: Fault, encode: Encoder, t: ServerState, user: User, ldapForwards: seq<Forward>, allow: bool)
    ensures var r := UpdateForwards(fault, encode, t, user, ldapForwards, allow);
            r.out == Value(true) ==>
              forall f :: f in Lookup(r.state.forwards, user.email) <==>
                f in Lookup(t.forwards, user.email) || (f in ldapForwards && SynchronizeLocalCopyForwards(f, user.email, allow))
  {
    var e := user.email;
    var current := GetForwards(fault, t, e);
    var r := UpdateForwards(fault, encode, t, user, ldapForwards, allow);
    if current.out.Value? {
      var toAdd := ComputeForwardsToAdd(user, ldapForwards, current.out.value, allow);
      FoldAdds(current.state, toAdd, ForwardCreation(fault, encode, user), HeldForwards(e));
      assert r == CreateForwards(fault, encode, current.state, user, toAdd);
      assert HeldForwards(e)(current.state) == Members(Lookup(t.forwards, e));
      if r.out == Value(true) {
        var before := Lookup(t.forwards, e);
        var after := Lookup(r.state.forwards, e);
        assert Members(after) == Members(before) + Members(toAdd);
        forall f
          ensures f in after <==> f in before || (f in ldapForwards && SynchronizeLocalCopyForwards(f, e, allow))
        {
          assert f in after <==> f in Members(before) + Members(toAdd);
        }
      }
    }
  }

  /** The one-argument `deleteForwards`: success leaves the user without
      forwards; any outcome touches only that user. */
  lemma DeleteForwardsEmpties(fault: Fault, encode: Encoder, t: ServerState, user: User)
    ensures var r := DeleteForwards(fault, encode, t, user);
            OnlyForwardsOf(t, r.state, user.email) &&
            (r.out == Value(true) ==> Lookup(r.state.forwards, user.email) == [])
  {
    var current := GetForwards(fault, t, user.email);
    if current.out.Value? {
      var held := current.out.value;
      ForwardFoldsTouchOnlyTheUser(fault, encode, t, current.state, user, held);
      FoldDrops(current.state, held, ForwardDeletion(fault, encode, user), (s: ServerState) => Members(Lookup(s.forwards, user.email)));
      var r := DeleteForwards(fault, encode, t, user);
      NoMembers(Lookup(r.state.forwards, user.email));
    }
  }

  // ----- what the compound operations throw -----

  /** Every write of these reconciliations throws at most a ProcessingException. */
  ghost predicate WritesThrowProcessing<T(!new)>(write: (ServerState, T) -> DaoStep<bool>) {
    forall b, x :: write(b, x).out.Thrown? ==> write(b, x).out.error == Processing
  }

  lemma FoldThrowsProcessing<T(!new)>(s: ServerState, items: seq<T>, write: (ServerState, T) -> DaoStep<bool>)
    requires WritesThrowProcessing(write)
    ensures Fold(s, items, write).out.Thrown? ==> Fold(s, items, write).out.error == Processing
  {
    FoldThrowsOnly(s, items, write, (e: Exception) => e == Processing);
  }

  /** Updating or deleting aliases throws only what a read or a write can. */
  lemma AliasOperationsThrowReadErrors(fault: Fault, encode: Encoder, t: ServerState, user: User, aliases: seq<Alias>)
    ensures var r := CreateAliases(fault, encode, t, user, aliases); r.out.Thrown? ==> r.out.error == Processing
    ensures var r := UpdateAliases(fault, encode, t, user, aliases); r.out.Thrown? ==> ReadError(r.out.error)
    ensures var r := DeleteAliases(fault, encode, t, user); r.out.Thrown? ==> ReadError(r.out.error)
  {
    assert WritesThrowProcessing(AliasCreation(fault, encode, user));
    assert WritesThrowProcessing(AliasRemoval(fault, encode, user));
    forall s: ServerState, items: seq<Alias>
      ensures var f := CreateAliases(fault, encode, s, user, items); f.out.Thrown? ==> f.out.error == Processing
      ensures var f := RemoveAliases(fault, encode, s, user, items); f.out.Thrown? ==> f.out.error == Processing
    {
      FoldThrowsProcessing(s, items, AliasCreation(fault, encode, user));
      FoldThrowsProcessing(s, items, AliasRemoval(fault, encode, user));
    }
  }

  /** Creating, updating or deleting forwards throws only what a read or a write can. */
  lemma ForwardOperationsThrowReadErrors(fault: Fault, encode: Encoder, t: ServerState, user: User, forwards: seq<Forward>, allow: bool)
    ensures var r := CreateForwards(fault, encode, t, user, forwards); r.out.Thrown? ==> r.out.error == Processing
    ensures var r := UpdateForwards(fault, encode, t, user, forwards, allow); r.out.Thrown? ==> ReadError(r.out.error)
    ensures var r := DeleteForwards(fault, encode, t, user); r.out.Thrown? ==> ReadError(r.out.error)
  {
    assert WritesThrowProcessing(ForwardCreation(fault, encode, user));
    assert WritesThrowProcessing(ForwardDeletion(fault, encode, user));
    forall s: ServerState, items: seq<Forward>
      ensures var f := CreateForwards(fault, encode, s, user, items); f.out.Thrown? ==> f.out.error == Processing
      ensures var f := DeleteForwardsIn(fault, encode, s, user, items); f.out.Thrown? ==> f.out.error == Processing
    {
      FoldThrowsProcessing(s, items, ForwardCreation(fault, encode, user));
      FoldThrowsProcessing(s, items, ForwardDeletion(fault, encode, user));
    }
  }

  /** Updating or removing address mappings throws only what a read or a write can. */
  lemma MappingOperationsThrowReadErrors(fault: Fault, t: ServerState, user: User, mappings: seq<AddressMapping>)
    ensures var r := UpdateAddressMappings(fault, t, user, mappings); r.out.Thrown? ==> ReadError(r.out.error)
    ensures var r := RemoveAddressMappings(fault, t, user); r.out.Thrown? ==> ReadError(r.out.error)
  {
    assert WritesThrowProcessing(MappingCreation(fault, user));
    assert WritesThrowProcessing(MappingRemoval(fault, user));
    forall s: ServerState, items: seq<AddressMapping>
      ensures var f := CreateAddressMappings(fault, s, user, items); f.out.Thrown? ==> f.out.error == Processing
      ensures var f := RemoveAddressMappingsIn(fault, s, user, items); f.out.Thrown? ==> f.out.error == Processing
    {
      FoldThrowsProcessing(s, items, MappingCreation(fault, user));
      FoldThrowsProcessing(s, items, MappingRemoval(fault, user));
    }
  }
}
