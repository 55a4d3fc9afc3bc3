/** What each JamesDao operation does, as a function of the server state it
    starts from: the outcome it returns or throws and the state it leaves.
    Typed reads follow Jersey's `get(GenericType)`: no reply is a
    ProcessingException, 404 a NotFoundException, any other non-2xx status a
    WebApplicationException. Raw requests return their response, and only
    `checkResponse` (a 2xx status) decides success. */
module DaoModel {
  import opened Outcomes
  import opened Sequences
  import opened Reconcile
  import opened Beans
  import opened IdentityBean
  import opened ContactBean
  import opened Remote

  /** URLEncoder.encode; None when the encoding is refused. The server decodes
      the path segment again, so requests carry the plain address. */
  type Encoder = string -> Option<string>

  ghost predicate EncodesEverything(encode: Encoder) {
    forall address :: encode(address).Some?
  }

  type DaoStep<T> = Step<ServerState, T>

  const HttpStatusCodeUserExists: int := 200
  const HttpStatusCodeUserDoesNotExist: int := 404

  /** `checkResponse`: the status is in the 2xx family. */
  function CheckResponse(code: int): (ok: bool)
    ensures ok <==> 200 <= code <= 299
  {
    Family(code) == Successful
  }

  /** What a typed read can throw: a ProcessingException or a
      WebApplicationException (a NotFoundException among them). */
  predicate ReadError(e: Exception) {
    e == Processing || e == NotFound || e.WebApplication?
  }

  /** The outcome of a typed read whose body decodes to `decoded` (None when it
      does not have the expected shape, which Jersey reports as a processing error). */
  function ReadOutcome<T>(reply: Reply, decoded: Option<T>): (r: Outcome<T>)
    ensures r.Value? ==> reply.Status? && CheckResponse(reply.code) && decoded == Some(r.value)
    ensures r == Thrown(NotFound) <==> reply == Status(404)
    ensures r.Thrown? ==> ReadError(r.error)
  {
    match reply
    case NoReply => Thrown(Processing)
    case Status(code) =>
      if CheckResponse(code) then (if decoded.Some? then Value(decoded.value) else Thrown(Processing))
      else if code == 404 then Thrown(NotFound)
      else Thrown(WebApplication(code))
  }

  /** The outcome of a raw write: whether it was answered with a 2xx status. */
  function WriteOutcome(reply: Reply): (r: Outcome<bool>)
    ensures r == Value(true) <==> Succeeded(reply)
    ensures r.Thrown? <==> reply == NoReply
  {
    match reply
    case NoReply => Thrown(Processing)
    case Status(code) => Value(CheckResponse(code))
  }

  function NamesIn(b: Body): Option<seq<string>> {
    if b.Names? then Some(b.names) else None
  }

  function AliasesIn(b: Body): Option<seq<Alias>> {
    if b.Aliases? then Some(b.aliases) else None
  }

  function ForwardsIn(b: Body): Option<seq<Forward>> {
    if b.Forwards? then Some(b.forwards) else None
  }

  function MappingsIn(b: Body): Option<seq<AddressMappingDto>> {
    if b.Mappings? then Some(b.mappings) else None
  }

  function QuotaIn(b: Body): Option<Option<QuotaSize>> {
    if b.Quota? then Some(b.quota) else None
  }

  function IdentitiesIn(b: Body): Option<seq<Identity>> {
    if b.Identities? then Some(b.identities) else None
  }

  /** One raw write request. */
  function Write(fault: Fault, t: ServerState, c: Call): (r: DaoStep<bool>)
    ensures r.out == Value(true) <==> SucceedsAt(fault, t, c)
    ensures r.out.Thrown? ==> r.out.error == Processing
    ensures r.out == Value(true) ==> r.state == Effect(t, c).(log := t.log + [c])
    ensures r.out != Value(true) ==> r.state == t.(log := t.log + [c])
  {
    var x := Exchange(fault, t, c);
    Step(WriteOutcome(x.response.reply), x.state)
  }

  /** `names.stream().map(User::new)` */
  function UsersNamed(names: seq<string>): (users: seq<User>)
    ensures |users| == |names| && forall i | 0 <= i < |users| :: users[i] == User(names[i])
  {
    if names == [] then [] else [User(names[0])] + UsersNamed(names[1..])
  }

  /** A read of a list of addresses, as users. */
  function ListUsersBy(fault: Fault, t: ServerState, c: Call): (r: DaoStep<seq<User>>)
    requires c == ListAliasUsers || c == ListForwardUsers || c == ListUsers || c == ListContacts
    ensures r.state == t.(log := t.log + [c])
    ensures SucceedsAt(fault, t, c) <==> r.out.Value?
    ensures r.out.Value? ==> BodyOf(t, c).Names? && r.out.value == UsersNamed(BodyOf(t, c).names)
  {
    var x := Exchange(fault, t, c);
    var read := ReadOutcome(x.response.reply, NamesIn(x.response.body));
    Step(if read.Value? then Value(UsersNamed(read.value)) else Thrown(read.error), x.state)
  }

  // ----- reconciliation -----

  /** `computeAliasToAdd`, `computeAddressMappingsToAdd`: the desired items the
      server does not hold, in desired order. */
  function ComputeToAdd<T(==,!new)>(desired: seq<T>, present: seq<T>): (toAdd: seq<T>)
    ensures forall x :: x in toAdd <==> x in desired && x !in present
    ensures IsSubsequence(toAdd, desired)
  {
    Missing(desired, present)
  }

  /** `computeAliasToRemove`, `computeAddressMappingToRemove`: the held items
      that are not desired, in the server's order. */
  function ComputeToRemove<T(==,!new)>(desired: seq<T>, present: seq<T>): (toRemove: seq<T>)
    ensures forall x :: x in toRemove <==> x in present && x !in desired
    ensures IsSubsequence(toRemove, present)
  {
    Missing(present, desired)
  }

  /** `synchronizeLocalCopyForwards`: whether a forward may be synchronised;
      a forward to the user's own address (a local copy) only when allowed. */
  predicate SynchronizeLocalCopyForwards(ldapForward: Forward, userMailAddress: string, allowSynchronizeLocalCopyForwards: bool) {
    if allowSynchronizeLocalCopyForwards then true else ldapForward.mailAddress != userMailAddress
  }

  /** `computeForwardsToAdd`: the desired forwards the server does not hold and that may be synchronised. */
  function ComputeForwardsToAdd(user: User, ldapForwards: seq<Forward>, jamesForwards: seq<Forward>, allow: bool): (toAdd: seq<Forward>)
    ensures forall f :: f in toAdd <==>
              f in ldapForwards && f !in jamesForwards && (allow || f.mailAddress != user.email)
    ensures IsSubsequence(toAdd, ldapForwards)
    decreases |ldapForwards|
  {
    if ldapForwards == [] then []
    else
      var f := ldapForwards[0];
      var rest := ComputeForwardsToAdd(user, ldapForwards[1..], jamesForwards, allow);
      assert ldapForwards == [f] + ldapForwards[1..];
      if f !in jamesForwards && SynchronizeLocalCopyForwards(f, user.email, allow) then [f] + rest
      else
        assert rest == [] || rest[0] != f;
        rest
  }

  // ----- aliases -----

  /** `getAliases`: the user's aliases; none at all is a NotFoundException. */
  function GetAliases(fault: Fault, t: ServerState, email: string): (r: DaoStep<seq<Alias>>)
    ensures r.state == t.(log := t.log + [ListAliases(email)])
    ensures SucceedsAt(fault, t, ListAliases(email)) ==>
              r.out == if Lookup(t.aliases, email) == [] then Thrown(NotFound) else Value(Lookup(t.aliases, email))
    ensures !SucceedsAt(fault, t, ListAliases(email)) ==> r.out.Thrown?
    ensures r.out.Thrown? ==> ReadError(r.out.error)
  {
    var x := Exchange(fault, t, ListAliases(email));
    var read := ReadOutcome(x.response.reply, AliasesIn(x.response.body));
    Step(if read == Value([]) then Thrown(NotFound) else read, x.state)
  }

  function CreateAlias(fault: Fault, encode: Encoder, t: ServerState, user: User, alias: Alias): (r: DaoStep<bool>)
    ensures OnlyAliasesOf(t, r.state, user.email)
    ensures r.out == Value(true) ==>
              Members(Lookup(r.state.aliases, user.email)) == Members(Lookup(t.aliases, user.email)) + {alias}
    ensures r.out != Value(true) ==> Lookup(r.state.aliases, user.email) == Lookup(t.aliases, user.email)
    ensures r.state.log == t.log + [PutAlias(user.email, alias)] || (r.state.log == t.log && r.out == Value(false))
  {
    if encode(alias.source).None? then Step(Value(false), t) else Write(fault, t, PutAlias(user.email, alias))
  }

  function AliasCreation(fault: Fault, encode: Encoder, user: User): (ServerState, Alias) -> DaoStep<bool> {
    (s, a) => CreateAlias(fault, encode, s, user, a)
  }

  function CreateAliases(fault: Fault, encode: Encoder, t: ServerState, user: User, aliasesToAdd: seq<Alias>): DaoStep<bool> {
    Fold(t, aliasesToAdd, AliasCreation(fault, encode, user))
  }

  function RemoveAlias(fault: Fault, encode: Encoder, t: ServerState, user: User, alias: Alias): (r: DaoStep<bool>)
    ensures OnlyAliasesOf(t, r.state, user.email)
    ensures r.out == Value(true) ==>
              Members(Lookup(r.state.aliases, user.email)) == Members(Lookup(t.aliases, user.email)) - {alias}
    ensures r.out != Value(true) ==> Lookup(r.state.aliases, user.email) == Lookup(t.aliases, user.email)
    ensures r.state.log == t.log + [DeleteAlias(user.email, alias)] || (r.state.log == t.log && r.out == Value(false))
  {
    if encode(alias.source).None? then Step(Value(false), t) else Write(fault, t, DeleteAlias(user.email, alias))
  }

  function AliasRemoval(fault: Fault, encode: Encoder, user: User): (ServerState, Alias) -> DaoStep<bool> {
    (s, a) => RemoveAlias(fault, encode, s, user, a)
  }

  function RemoveAliases(fault: Fault, encode: Encoder, t: ServerState, user: User, aliasesToRemove: seq<Alias>): DaoStep<bool> {
    Fold(t, aliasesToRemove, AliasRemoval(fault, encode, user))
  }

  /** `updateAliases`: read, remove the surplus, and only if that succeeded create the missing. */
  function UpdateAliases(fault: Fault, encode: Encoder, t: ServerState, user: User, updatedAliases: seq<Alias>): DaoStep<bool> {
    var current := GetAliases(fault, t, user.email);
    if current.out.Thrown? then Step(Thrown(current.out.error), current.state)
    else
      var removal := RemoveAliases(fault, encode, current.state, user, ComputeToRemove(updatedAliases, current.out.value));
      if removal.out == Value(true) then
        CreateAliases(fault, encode, removal.state, user, ComputeToAdd(updatedAliases, current.out.value))
      else removal
  }

  /** `deleteAlias`: remove every alias the user has. */
  function DeleteAliases(fault: Fault, encode: Encoder, t: ServerState, user: User): DaoStep<bool> {
    var current := GetAliases(fault, t, user.email);
    if current.out.Thrown? then Step(Thrown(current.out.error), current.state)
    else RemoveAliases(fault, encode, current.state, user, current.out.value)
  }

  function GetUsersListViaAlias(fault: Fault, t: ServerState): DaoStep<seq<User>> {
    ListUsersBy(fault, t, ListAliasUsers)
  }

  // ----- forwards -----

  /** `getForwards`: the user's forwards; none at all is a NotFoundException. */
  function GetForwards(fault: Fault, t: ServerState, email: string): (r: DaoStep<seq<Forward>>)
    ensures r.state == t.(log := t.log + [ListForwards(email)])
    ensures SucceedsAt(fault, t, ListForwards(email)) ==>
              r.out == if Lookup(t.forwards, email) == [] then Thrown(NotFound) else Value(Lookup(t.forwards, email))
    ensures !SucceedsAt(fault, t, ListForwards(email)) ==> r.out.Thrown?
    ensures r.out.Thrown? ==> ReadError(r.out.error)
  {
    var x := Exchange(fault, t, ListForwards(email));
    var read := ReadOutcome(x.response.reply, ForwardsIn(x.response.body));
    Step(if read == Value([]) then Thrown(NotFound) else read, x.state)
  }

  function CreateForward(fault: Fault, encode: Encoder, t: ServerState, user: User, forward: Forward): (r: DaoStep<bool>)
    ensures OnlyForwardsOf(t, r.state, user.email)
    ensures r.out == Value(true) ==>
              Members(Lookup(r.state.forwards, user.email)) == Members(Lookup(t.forwards, user.email)) + {forward}
    ensures r.out != Value(true) ==> Lookup(r.state.forwards, user.email) == Lookup(t.forwards, user.email)
    ensures r.state.log == t.log + [PutForward(user.email, forward)] || (r.state.log == t.log && r.out == Value(false))
  {
    if encode(forward.mailAddress).None? then Step(Value(false), t) else Write(fault, t, PutForward(user.email, forward))
  }

  function ForwardCreation(fault: Fault, encode: Encoder, user: User): (ServerState, Forward) -> DaoStep<bool> {
    (s, f) => CreateForward(fault, encode, s, user, f)
  }

  function CreateForwards(fault: Fault, encode: Encoder, t: ServerState, user: User, forwardsToAdd: seq<Forward>): DaoStep<bool> {
    Fold(t, forwardsToAdd, ForwardCreation(fault, encode, user))
  }

  function DeleteForward(fault: Fault, encode: Encoder, t: ServerState, user: User, forward: Forward): (r: DaoStep<bool>)
    ensures OnlyForwardsOf(t, r.state, user.email)
    ensures r.out == Value(true) ==>
              Members(Lookup(r.state.forwards, user.email)) == Members(Lookup(t.forwards, user.email)) - {forward}
    ensures r.out != Value(true) ==> Lookup(r.state.forwards, user.email) == Lookup(t.forwards, user.email)
    ensures r.state.log == t.log + [Remote.DeleteForward(user.email, forward)] || (r.state.log == t.log && r.out == Value(false))
  {
    if encode(forward.mailAddress).None? then Step(Value(false), t) else Write(fault, t, Remote.DeleteForward(user.email, forward))
  }

  function ForwardDeletion(fault: Fault, encode: Encoder, user: User): (ServerState, Forward) -> DaoStep<bool> {
    (s, f) => DeleteForward(fault, encode, s, user, f)
  }

  /** The two-argument `deleteForwards`. */
  function DeleteForwardsIn(fault: Fault, encode: Encoder, t: ServerState, user: User, forwardsToDelete: seq<Forward>): DaoStep<bool> {
    Fold(t, forwardsToDelete, ForwardDeletion(fault, encode, user))
  }

  /** `updateForwards`: read, then create the forwards to add; nothing is removed. */
  function UpdateForwards(fault: Fault, encode: Encoder, t: ServerState, user: User, ldapForwards: seq<Forward>, allow: bool): DaoStep<bool> {
    var current := GetForwards(fault, t, user.email);
    if current.out.Thrown? then Step(Thrown(current.out.error), current.state)
    else CreateForwards(fault, encode, current.state, user, ComputeForwardsToAdd(user, ldapForwards, current.out.value, allow))
  }

  /** The one-argument `deleteForwards`: delete every forward the user has. */
  function DeleteForwards(fault: Fault, encode: Encoder, t: ServerState, user: User): DaoStep<bool> {
    var current := GetForwards(fault, t, user.email);
    if current.out.Thrown? then Step(Thrown(current.out.error), current.state)
    else DeleteForwardsIn(fault, encode, current.state, user, current.out.value)
  }

  function GetUsersHaveForwards(fault: Fault, t: ServerState): DaoStep<seq<User>> {
    ListUsersBy(fault, t, ListForwardUsers)
  }

  // ----- address mappings -----

  /** `filterAddressType` then `new AddressMapping(mapping)`: the "Address" entries' targets, in order. */
  function AddressMappingsOf(entries: seq<AddressMappingDto>): (r: seq<AddressMapping>)
    ensures forall m :: m in r <==> AddressEntry(m) in entries
    ensures |r| <= |entries|
  {
    if entries == [] then []
    else
      assert entries == [entries[0]] + entries[1..];
      (if entries[0].mappingType == "Address" then [AddressMapping(entries[0].mapping)] else []) + AddressMappingsOf(entries[1..])
  }

  /** `getAddressMappings`: the user's "Address" mappings; an empty list is no error. */
  function GetAddressMappings(fault: Fault, t: ServerState, email: string): (r: DaoStep<seq<AddressMapping>>)
    ensures r.state == t.(log := t.log + [ListMappings(email)])
    ensures SucceedsAt(fault, t, ListMappings(email)) <==> r.out.Value?
    ensures r.out.Value? ==> r.out.value == AddressMappingsOf(Lookup(t.mappings, email))
    ensures r.out.Thrown? ==> ReadError(r.out.error)
  {
    var x := Exchange(fault, t, ListMappings(email));
    var read := ReadOutcome(x.response.reply, MappingsIn(x.response.body));
    Step(if read.Value? then Value(AddressMappingsOf(read.value)) else Thrown(read.error), x.state)
  }

  function CreateAddressMapping(fault: Fault, t: ServerState, user: User, mapping: AddressMapping): (r: DaoStep<bool>)
    ensures OnlyMappingsOf(t, r.state, user.email)
    ensures r.out == Value(true) ==>
              Members(AddressMappingsOf(Lookup(r.state.mappings, user.email))) ==
              Members(AddressMappingsOf(Lookup(t.mappings, user.email))) + {mapping}
    ensures r.out != Value(true) ==> Lookup(r.state.mappings, user.email) == Lookup(t.mappings, user.email)
    ensures r.state.log == t.log + [PostMapping(user.email, mapping)]
  {
    Write(fault, t, PostMapping(user.email, mapping))
  }

  function MappingCreation(fault: Fault, user: User): (ServerState, AddressMapping) -> DaoStep<bool> {
    (s, m) => CreateAddressMapping(fault, s, user, m)
  }

  function CreateAddressMappings(fault: Fault, t: ServerState, user: User, mappingsToAdd: seq<AddressMapping>): DaoStep<bool> {
    Fold(t, mappingsToAdd, MappingCreation(fault, user))
  }

  function RemoveAddressMapping(fault: Fault, t: ServerState, user: User, mapping: AddressMapping): (r: DaoStep<bool>)
    ensures OnlyMappingsOf(t, r.state, user.email)
    ensures r.out == Value(true) ==>
              Members(AddressMappingsOf(Lookup(r.state.mappings, user.email))) ==
              Members(AddressMappingsOf(Lookup(t.mappings, user.email))) - {mapping}
    ensures r.out != Value(true) ==> Lookup(r.state.mappings, user.email) == Lookup(t.mappings, user.email)
    ensures r.state.log == t.log + [DeleteMapping(user.email, mapping)]
  {
    Write(fault, t, DeleteMapping(user.email, mapping))
  }

  function MappingRemoval(fault: Fault, user: User): (ServerState, AddressMapping) -> DaoStep<bool> {
    (s, m) => RemoveAddressMapping(fault, s, user, m)
  }

  /** The two-argument `removeAddressMappings`. */
  function RemoveAddressMappingsIn(fault: Fault, t: ServerState, user: User, mappingsToRemove: seq<AddressMapping>): DaoStep<bool> {
    Fold(t, mappingsToRemove, MappingRemoval(fault, user))
  }

  /** `updateAddressMappings`: read, create the missing, and only if that succeeded remove the surplus. */
  function UpdateAddressMappings(fault: Fault, t: ServerState, user: User, ldapMappings: seq<AddressMapping>): DaoStep<bool> {
    var current := GetAddressMappings(fault, t, user.email);
    if current.out.Thrown? then Step(Thrown(current.out.error), current.state)
    else
      var creation := CreateAddressMappings(fault, current.state, user, ComputeToAdd(ldapMappings, current.out.value));
      if creation.out == Value(true) then
        RemoveAddressMappingsIn(fault, creation.state, user, ComputeToRemove(ldapMappings, current.out.value))
      else creation
  }

  /** The one-argument `removeAddressMappings`: remove every "Address" mapping the user has. */
  function RemoveAddressMappings(fault: Fault, t: ServerState, user: User): DaoStep<bool> {
    var current := GetAddressMappings(fault, t, user.email);
    if current.out.Thrown? then Step(Thrown(current.out.error), current.state)
    else RemoveAddressMappingsIn(fault, current.state, user, current.out.value)
  }

  // ----- identities -----

  /** `getDefaultIdentity`: the first listed identity; none is a NotFoundException. */
  function GetDefaultIdentity(fault: Fault, t: ServerState, email: string): (r: DaoStep<Identity>)
    ensures r.state == t.(log := t.log + [ListIdentities(email)])
    ensures SucceedsAt(fault, t, ListIdentities(email)) ==>
              r.out == if Lookup(t.identities, email) == [] then Thrown(NotFound) else Value(Lookup(t.identities, email)[0])
    ensures !SucceedsAt(fault, t, ListIdentities(email)) ==> r.out.Thrown?
  {
    var x := Exchange(fault, t, ListIdentities(email));
    var read := ReadOutcome(x.response.reply, IdentitiesIn(x.response.body));
    Step(
      if read.Thrown? then Thrown(read.error)
      else if read.value == [] then Thrown(NotFound)
      else Value(read.value[0]),
      x.state)
  }

  function CreateDefaultIdentity(fault: Fault, t: ServerState, identity: Identity): (r: DaoStep<bool>)
    ensures OnlyIdentitiesOf(t, r.state, identity.email)
    ensures r.out == Value(true) ==>
              Lookup(r.state.identities, identity.email) == Lookup(t.identities, identity.email) + [identity]
    ensures r.out != Value(true) ==> r.state.identities == t.identities
  {
    Write(fault, t, PostIdentity(identity))
  }

  // ----- users -----

  function AddUser(fault: Fault, t: ServerState, user: User, password: string): (r: DaoStep<bool>)
    ensures OnlyUserOf(t, r.state, user.email)
    ensures r.out == Value(true) ==> user.email in r.state.users
    ensures r.out != Value(true) ==> r.state.users == t.users
  {
    Write(fault, t, PutUser(user.email, password))
  }

  function RemoveUser(fault: Fault, t: ServerState, user: User): (r: DaoStep<bool>)
    ensures OnlyUserOf(t, r.state, user.email)
    ensures r.out == Value(true) ==> user.email !in r.state.users
    ensures r.out != Value(true) ==> r.state.users == t.users
  {
    Write(fault, t, DeleteUser(user.email))
  }

  function GetUserList(fault: Fault, t: ServerState): DaoStep<seq<User>> {
    ListUsersBy(fault, t, ListUsers)
  }

  /** `userExists`: 200 is true, 404 is false, any other status a JamesClientException. */
  function UserExists(fault: Fault, t: ServerState, user: string): (r: DaoStep<bool>)
    ensures r.state == t.(log := t.log + [HeadUser(user)])
    ensures var reply := Exchange(fault, t, HeadUser(user)).response.reply;
            (r.out == Value(true) <==> reply == Status(HttpStatusCodeUserExists)) &&
            (r.out == Value(false) <==> reply == Status(HttpStatusCodeUserDoesNotExist)) &&
            (r.out == Thrown(Processing) <==> reply == NoReply) &&
            (reply.Status? && reply.code != 200 && reply.code != 404 ==> r.out == Thrown(JamesClient(reply.code)))
    ensures r.out == Value(true) ==> user in t.users
    ensures AnsweredNaturally(fault, t, HeadUser(user)) ==> r.out == Value(user in t.users)
  {
    var x := Exchange(fault, t, HeadUser(user));
    var out :=
      match x.response.reply
      case NoReply => Thrown(Processing)
      case Status(code) =>
        if code == HttpStatusCodeUserExists then Value(true)
        else if code == HttpStatusCodeUserDoesNotExist then Value(false)
        else Thrown(JamesClient(code));
    Step(out, x.state)
  }

  // ----- contacts -----

  function AddDomainContact(fault: Fault, t: ServerState, contact: Contact): (r: DaoStep<bool>)
    ensures OnlyContactOf(t, r.state, contact.emailAddress)
    ensures r.out == Value(true) ==> FindContact(r.state.contacts, contact.emailAddress) == Some(contact)
    ensures r.out != Value(true) ==> r.state.contacts == t.contacts
  {
    var c := PostContact(contact.GetDomain(), contact);
    PostChangesOnlyThatContact(t, c.domain, contact);
    Write(fault, t, c)
  }

  function GetUsersListViaDomainContacts(fault: Fault, t: ServerState): DaoStep<seq<User>> {
    ListUsersBy(fault, t, ListContacts)
  }

  /** `getContact`: a raw read; any non-2xx status is a NotFoundException, and
      a body that is not a contact fails to decode. An address without '@'
      throws before any request. */
  function GetContact(fault: Fault, t: ServerState, email: string): (r: DaoStep<Contact>)
    ensures '@' !in email ==> r == Step(Thrown(StringIndexOutOfBounds), t)
    ensures r.out.Value? ==> FindContact(t.contacts, email) == Some(r.out.value)
    ensures '@' in email ==> OnlyContactOf(t, r.state, email) && r.state.contacts == t.contacts
    ensures '@' in email && AnsweredNaturally(fault, t, Remote.GetContact(ExtractDomainFromEmail(email), ExtractUsernameFromEmail(email).value)) ==>
              r.out == if FindContact(t.contacts, email).Some? then Value(FindContact(t.contacts, email).value) else Thrown(NotFound)
  {
    var username := ExtractUsernameFromEmail(email);
    if username.Thrown? then Step(Thrown(username.error), t)
    else
      UsernameAndDomainRebuildEmail(email);
      var c := Remote.GetContact(ExtractDomainFromEmail(email), username.value);
      assert ContactAddress(c.domain, c.username) == email;
      ContactReadExchange(fault, t, c.domain, c.username);
      var x := Exchange(fault, t, c);
      var out :=
        match x.response.reply
        case NoReply => Thrown(Processing)
        case Status(code) =>
          if !CheckResponse(code) then Thrown(NotFound)
          else if x.response.body.Found? then Value(x.response.body.contact)
          else Thrown(Io);
      Step(out, x.state)
  }

  /** `updateDomainContact`: send the contact's names. */
  function UpdateDomainContact(fault: Fault, t: ServerState, contact: Contact): (r: DaoStep<bool>)
    ensures '@' !in contact.emailAddress ==> r == Step(Thrown(StringIndexOutOfBounds), t)
    ensures OnlyContactOf(t, r.state, contact.emailAddress)
    ensures r.out == Value(true) ==>
              FindContact(t.contacts, contact.emailAddress).Some? &&
              FindContact(r.state.contacts, contact.emailAddress) == Some(contact)
    ensures r.out != Value(true) ==> r.state.contacts == t.contacts
  {
    var username := contact.GetUsernameFromEmail();
    if username.Thrown? then Step(Thrown(username.error), t)
    else
      assert '@' in contact.emailAddress;
      var c := PutContactNames(contact.GetDomain(), username.value, contact.GetContactNames());
      RenameEffect(t, contact);
      var w := Write(fault, t, c);
      assert w.out == Value(true) ==> NaturalReply(t, c) == Status(204);
      w
  }

  /** The rename request of `updateDomainContact` touches only that contact,
      whose names it replaces where it exists. */
  lemma RenameEffect(t: ServerState, contact: Contact)
    requires '@' in contact.emailAddress
    ensures var t' := Effect(t, PutContactNames(contact.GetDomain(), contact.GetUsernameFromEmail().value, contact.GetContactNames()));
            ContactAddress(contact.GetDomain(), contact.GetUsernameFromEmail().value) == contact.emailAddress &&
            OnlyContactOf(t, t', contact.emailAddress) &&
            FindContact(t'.contacts, contact.emailAddress) ==
              if FindContact(t.contacts, contact.emailAddress).Some? then Some(contact) else None
  {
    ContactAddressParts(contact);
    var email := contact.emailAddress;
    var domain := contact.GetDomain();
    var username := contact.GetUsernameFromEmail().value;
    var names := contact.GetContactNames();
    assert ContactAddress(domain, username) == email;
    RenameChangesOnlyThatContact(t, domain, username, names);
  }

  function RemoveDomainContact(fault: Fault, t: ServerState, email: string): (r: DaoStep<bool>)
    ensures '@' !in email ==> r == Step(Thrown(StringIndexOutOfBounds), t)
    ensures OnlyContactOf(t, r.state, email)
    ensures r.out == Value(true) ==> FindContact(r.state.contacts, email) == None
    ensures r.out != Value(true) ==> r.state.contacts == t.contacts
  {
    var username := ExtractUsernameFromEmail(email);
    if username.Thrown? then Step(Thrown(username.error), t)
    else
      UsernameAndDomainRebuildEmail(email);
      assert ContactAddress(ExtractDomainFromEmail(email), username.value) == email;
      Write(fault, t, Remote.DeleteContact(ExtractDomainFromEmail(email), username.value))
  }

  // ----- quotas: getQuotaSize, setQuotaSize and deleteQuotaSize are called by
  // JamesMailQuotaSizeDstService but are not declared in JamesDao.java -----

  function GetQuotaSize(fault: Fault, t: ServerState, email: string): (r: DaoStep<Option<QuotaSize>>)
    ensures r.state == t.(log := t.log + [GetQuota(email)])
    ensures SucceedsAt(fault, t, GetQuota(email)) <==> r.out.Value?
    ensures r.out.Value? ==> email in t.users && r.out.value == if email in t.quotas then Some(t.quotas[email]) else None
    ensures AnsweredNaturally(fault, t, GetQuota(email)) && email !in t.users ==> r.out == Thrown(NotFound)
  {
    var x := Exchange(fault, t, GetQuota(email));
    Step(ReadOutcome(x.response.reply, QuotaIn(x.response.body)), x.state)
  }

  function SetQuotaSize(fault: Fault, t: ServerState, user: User, size: QuotaSize): (r: DaoStep<bool>)
    ensures OnlyQuotaOf(t, r.state, user.email)
    ensures r.out == Value(true) ==> user.email in r.state.quotas && r.state.quotas[user.email] == size
    ensures r.out != Value(true) ==> r.state.quotas == t.quotas
    ensures AnsweredNaturally(fault, t, PutQuota(user.email, size)) ==> (r.out == Value(true) <==> user.email in t.users)
  {
    Write(fault, t, PutQuota(user.email, size))
  }

  function DeleteQuotaSize(fault: Fault, t: ServerState, user: User): (r: DaoStep<bool>)
    ensures OnlyQuotaOf(t, r.state, user.email)
    ensures r.out == Value(true) ==> user.email !in r.state.quotas
    ensures r.out != Value(true) ==> r.state.quotas == t.quotas
    ensures AnsweredNaturally(fault, t, DeleteQuota(user.email)) ==> (r.out == Value(true) <==> user.email in t.users)
  {
    Write(fault, t, DeleteQuota(user.email))
  }
}
