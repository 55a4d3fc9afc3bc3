/** The James/TMail webadmin server as the connector sees it: the requests it
    sends, the replies it gets, and a simulated server whose per-user stores
    the requests read and change. Which request fails is decided by a fault
    plan; a request that does not fail gets the reply the server would give. */
module Remote {
  import opened Outcomes
  import opened Sequences
  import opened Beans
  import opened IdentityBean
  import opened ContactBean

  /** One webadmin request. Paths that carry an address hold it decoded. */
  datatype Call =
    | ListAliasUsers                                                       // GET /address/aliases
    | ListAliases(user: string)                                            // GET /address/aliases/{user}
    | PutAlias(user: string, alias: Alias)                                 // PUT /address/aliases/{user}/sources/{source}
    | DeleteAlias(user: string, alias: Alias)                              // DELETE the same
    | ListForwardUsers                                                     // GET /address/forwards
    | ListForwards(user: string)                                           // GET /address/forwards/{user}
    | PutForward(user: string, forward: Forward)                           // PUT /address/forwards/{user}/targets/{target}
    | DeleteForward(user: string, forward: Forward)                        // DELETE the same
    | ListMappings(user: string)                                           // GET /mappings/user/{user}
    | PostMapping(user: string, mapping: AddressMapping)                   // POST /mappings/address/{user}/targets/{target}
    | DeleteMapping(user: string, mapping: AddressMapping)                 // DELETE the same
    | GetQuota(user: string)                                               // read a user's storage quota
    | PutQuota(user: string, size: QuotaSize)                              // set it
    | DeleteQuota(user: string)                                            // remove it
    | ListIdentities(user: string)                                         // GET /users/{user}/identities?default=true
    | PostIdentity(identity: Identity)                                     // POST /users/{email}/identities
    | ListUsers                                                            // GET /users
    | HeadUser(user: string)                                               // HEAD /users/{user}
    | PutUser(user: string, password: string)                              // PUT /users/{user}
    | DeleteUser(user: string)                                             // DELETE /users/{user}
    | ListContacts                                                         // GET /domains/contacts/all
    | PostContact(domain: string, contact: Contact)                        // POST /domains/{domain}/contacts
    | GetContact(domain: string, username: string)                         // GET /domains/{domain}/contacts/{username}
    | PutContactNames(domain: string, username: string, names: ContactNames) // PUT the same
    | DeleteContact(domain: string, username: string)                      // DELETE the same

  /** The status line of a reply, or no reply at all (the transport failed). */
  datatype Reply = Status(code: int) | NoReply

  /** The decoded body of a reply. */
  datatype Body =
    | NoBody
    | Names(names: seq<string>)
    | Aliases(aliases: seq<Alias>)
    | Forwards(forwards: seq<Forward>)
    | Mappings(mappings: seq<AddressMappingDto>)
    | Quota(quota: Option<QuotaSize>)
    | Identities(identities: seq<Identity>)
    | Found(contact: Contact)

  datatype Response = Response(reply: Reply, body: Body)

  /** The fault plan: given every request sent so far, the last one included,
      the failure the server answers that request with, if any. A planned
      reply with a 2xx status is no failure and is ignored. */
  type Fault = seq<Call> -> Option<Reply>

  /** A plan under which no request fails. */
  ghost predicate Faultless(fault: Fault) {
    forall calls :: fault(calls) == None
  }

  /** Response.Status.Family */
  datatype StatusFamily = Informational | Successful | Redirection | ClientError | ServerError | Other

  /** Status.Family.familyOf */
  function Family(code: int): StatusFamily {
    if 100 <= code < 200 then Informational
    else if 200 <= code < 300 then Successful
    else if 300 <= code < 400 then Redirection
    else if 400 <= code < 500 then ClientError
    else if 500 <= code < 600 then ServerError
    else Other
  }

  predicate Succeeded(reply: Reply) {
    reply.Status? && Family(reply.code) == Successful
  }

  /** What the server holds. Each per-user store maps an address to its items;
      `aliasOwners`/`forwardOwners` list, in first-seen order, the addresses
      that have been given aliases or forwards, which is the order the
      listing requests answer in. `log` is every request received. */
  datatype ServerState = ServerState(
    users: seq<string>,
    aliases: map<string, seq<Alias>>,
    aliasOwners: seq<string>,
    forwards: map<string, seq<Forward>>,
    forwardOwners: seq<string>,
    mappings: map<string, seq<AddressMappingDto>>,
    quotas: map<string, QuotaSize>,
    identities: map<string, seq<Identity>>,
    contacts: seq<Contact>,
    log: seq<Call>)

  /** The addresses of `owners` that hold at least one item. */
  function Holders<T>(owners: seq<string>, store: map<string, seq<T>>): (r: seq<string>)
    ensures forall u :: u in r <==> u in owners && Lookup(store, u) != []
  {
    if owners == [] then []
    else
      assert owners == [owners[0]] + owners[1..];
      (if Lookup(store, owners[0]) != [] then [owners[0]] else []) + Holders(owners[1..], store)
  }

  /** The contact stored under `email`, if any. */
  function FindContact(contacts: seq<Contact>, email: string): (r: Option<Contact>)
    ensures r.Some? ==> r.value in contacts && r.value.emailAddress == email
    ensures r.None? <==> forall c | c in contacts :: c.emailAddress != email
  {
    if contacts == [] then None
    else if contacts[0].emailAddress == email then Some(contacts[0])
    else FindContact(contacts[1..], email)
  }

  /** The contacts other than the one stored under `email`. */
  function WithoutContact(contacts: seq<Contact>, email: string): (r: seq<Contact>)
    ensures forall c :: c in r <==> c in contacts && c.emailAddress != email
  {
    if contacts == [] then []
    else
      assert contacts == [contacts[0]] + contacts[1..];
      (if contacts[0].emailAddress == email then [] else [contacts[0]]) + WithoutContact(contacts[1..], email)
  }

  /** The contacts with the names of the one stored under `email` replaced. */
  function Renamed(contacts: seq<Contact>, email: string, names: ContactNames): (r: seq<Contact>)
    ensures |r| == |contacts|
    ensures forall i | 0 <= i < |r| ::
              r[i] == if contacts[i].emailAddress == email then Contact(email, names.firstname, names.surname) else contacts[i]
  {
    if contacts == [] then []
    else
      var head := if contacts[0].emailAddress == email then Contact(email, names.firstname, names.surname) else contacts[0];
      [head] + Renamed(contacts[1..], email, names)
  }

  /** A contact appended after contacts with other addresses is the one found under its address. */
  lemma {:induction false} FindAppendedContact(contacts: seq<Contact>, k: Contact)
    requires forall c | c in contacts :: c.emailAddress != k.emailAddress
    ensures FindContact(contacts + [k], k.emailAddress) == Some(k)
  {
    if contacts != [] {
      assert (contacts + [k])[1..] == contacts[1..] + [k];
      FindAppendedContact(contacts[1..], k);
    }
  }

  /** After a rename the contact found under `email` carries the new names. */
  lemma {:induction false} FindRenamedContact(contacts: seq<Contact>, email: string, names: ContactNames)
    ensures FindContact(Renamed(contacts, email, names), email) ==
            if FindContact(contacts, email).Some? then Some(Contact(email, names.firstname, names.surname)) else None
  {
    if contacts != [] {
      FindRenamedContact(contacts[1..], email, names);
    }
  }

  /** A rename keeps every contact stored under another address, and adds none. */
  lemma RenameKeepsOthers(contacts: seq<Contact>, email: string, names: ContactNames, k: Contact)
    requires k.emailAddress != email
    ensures k in Renamed(contacts, email, names) <==> k in contacts
  {
    var r := Renamed(contacts, email, names);
    if k in r {
      var i :| 0 <= i < |r| && r[i] == k;
      assert contacts[i] == k;
    }
    if k in contacts {
      var i :| 0 <= i < |contacts| && contacts[i] == k;
      assert r[i] == k;
    }
  }

  /** The effect of a rename request on the stores. */
  lemma RenameStoresRenamed(t: ServerState, domain: string, username: string, names: ContactNames)
    ensures Effect(t, PutContactNames(domain, username, names)) == t.(contacts := Renamed(t.contacts, ContactAddress(domain, username), names))
  {
  }

  /** A rename changes only the contact stored under its address, which then carries the new names. */
  lemma RenameChangesOnlyThatContact(t: ServerState, domain: string, username: string, names: ContactNames)
    ensures var email := ContactAddress(domain, username);
            var t' := Effect(t, PutContactNames(domain, username, names));
            OnlyContactOf(t, t', email) &&
            FindContact(t'.contacts, email) ==
              if FindContact(t.contacts, email).Some? then Some(Contact(email, names.firstname, names.surname)) else None
  {
    var email := ContactAddress(domain, username);
    RenameStoresRenamed(t, domain, username, names);
    FindRenamedContact(t.contacts, email, names);
    forall k: Contact | k.emailAddress != email
      ensures k in Renamed(t.contacts, email, names) <==> k in t.contacts
    {
      RenameKeepsOthers(t.contacts, email, names, k);
    }
  }

  /** Posting a contact replaces only the contact stored under its address, which is then that contact. */
  lemma PostChangesOnlyThatContact(t: ServerState, domain: string, contact: Contact)
    ensures var t' := Effect(t, PostContact(domain, contact));
            OnlyContactOf(t, t', contact.emailAddress) && FindContact(t'.contacts, contact.emailAddress) == Some(contact)
  {
    var stored := WithoutContact(t.contacts, contact.emailAddress) + [contact];
    assert Effect(t, PostContact(domain, contact)) == t.(contacts := stored);
    FindAppendedContact(WithoutContact(t.contacts, contact.emailAddress), contact);
    assert forall k: Contact | k.emailAddress != contact.emailAddress :: k in stored <==> k in t.contacts;
  }

  function ContactEmails(contacts: seq<Contact>): (r: seq<string>)
    ensures |r| == |contacts| && forall i | 0 <= i < |r| :: r[i] == contacts[i].emailAddress
  {
    if contacts == [] then [] else [contacts[0].emailAddress] + ContactEmails(contacts[1..])
  }

  /** The address a contact request names. */
  function ContactAddress(domain: string, username: string): string {
    username + "@" + domain
  }

  predicate IsRead(c: Call) {
    c.ListAliasUsers? || c.ListAliases? || c.ListForwardUsers? || c.ListForwards? || c.ListMappings? ||
    c.GetQuota? || c.ListIdentities? || c.ListUsers? || c.HeadUser? || c.ListContacts? || c.GetContact?
  }

  /** The reply of a request that does not fail: 404 for an unknown user or
      contact where the API looks one up (a user's existence, and every quota
      request); 409 to the creation of a user that exists and 400 to that of a
      name without a domain part; otherwise 200 for a read and 204 for a write. */
  function NaturalReply(t: ServerState, c: Call): Reply {
    match c
    case HeadUser(u) => if u in t.users then Status(200) else Status(404)
    case GetQuota(u) => if u in t.users then Status(200) else Status(404)
    case PutUser(u, _) => if u in t.users then Status(409) else if '@' !in u then Status(400) else Status(204)
    case PutQuota(u, _) => if u in t.users then Status(204) else Status(404)
    case DeleteQuota(u) => if u in t.users then Status(204) else Status(404)
    case GetContact(d, u) => if FindContact(t.contacts, ContactAddress(d, u)).Some? then Status(200) else Status(404)
    case PutContactNames(d, u, _) => if FindContact(t.contacts, ContactAddress(d, u)).Some? then Status(204) else Status(404)
    case _ => if IsRead(c) then Status(200) else Status(204)
  }

  /** The body of a successful read. */
  function BodyOf(t: ServerState, c: Call): Body {
    match c
    case ListAliasUsers => Names(Holders(t.aliasOwners, t.aliases))
    case ListAliases(u) => Aliases(Lookup(t.aliases, u))
    case ListForwardUsers => Names(Holders(t.forwardOwners, t.forwards))
    case ListForwards(u) => Forwards(Lookup(t.forwards, u))
    case ListMappings(u) => Mappings(Lookup(t.mappings, u))
    case GetQuota(u) => Quota(if u in t.quotas then Some(t.quotas[u]) else None)
    case ListIdentities(u) => Identities(Lookup(t.identities, u))
    case ListUsers => Names(t.users)
    case ListContacts => Names(ContactEmails(t.contacts))
    case GetContact(d, u) =>
      var found := FindContact(t.contacts, ContactAddress(d, u));
      if found.Some? then Found(found.value) else NoBody
    case _ => NoBody
  }

  /** The mapping the connector's address-mapping requests create and delete. */
  function AddressEntry(m: AddressMapping): AddressMappingDto {
    AddressMappingDto("Address", m.mapping)
  }

  /** What a successful write does to the stores; reads change nothing. */
  function Effect(t: ServerState, c: Call): ServerState {
    match c
    case PutAlias(u, a) => t.(aliases := t.aliases[u := Insert(Lookup(t.aliases, u), a)], aliasOwners := Insert(t.aliasOwners, u))
    case DeleteAlias(u, a) => t.(aliases := t.aliases[u := Erase(Lookup(t.aliases, u), a)])
    case PutForward(u, f) => t.(forwards := t.forwards[u := Insert(Lookup(t.forwards, u), f)], forwardOwners := Insert(t.forwardOwners, u))
    case DeleteForward(u, f) => t.(forwards := t.forwards[u := Erase(Lookup(t.forwards, u), f)])
    case PostMapping(u, m) => t.(mappings := t.mappings[u := Insert(Lookup(t.mappings, u), AddressEntry(m))])
    case DeleteMapping(u, m) => t.(mappings := t.mappings[u := Erase(Lookup(t.mappings, u), AddressEntry(m))])
    case PutQuota(u, q) => t.(quotas := t.quotas[u := q])
    case DeleteQuota(u) => t.(quotas := t.quotas - {u})
    case PostIdentity(i) => t.(identities := t.identities[i.email := Lookup(t.identities, i.email) + [i]])
    case PutUser(u, _) => t.(users := Insert(t.users, u))
    case DeleteUser(u) => t.(users := Erase(t.users, u))
    case PostContact(_, k) => t.(contacts := WithoutContact(t.contacts, k.emailAddress) + [k])
    case PutContactNames(d, u, n) => t.(contacts := Renamed(t.contacts, ContactAddress(d, u), n))
    case DeleteContact(d, u) => t.(contacts := WithoutContact(t.contacts, ContactAddress(d, u)))
    case _ => t
  }

  /** The reply to the request just logged: the planned failure, or the natural reply. */
  function ReplyTo(fault: Fault, log: seq<Call>, natural: Reply): Reply {
    var planned := fault(log);
    if planned.Some? && !Succeeded(planned.value) then planned.value else natural
  }

  datatype Exchanged = Exchanged(response: Response, state: ServerState)

  /** The server gives `c`, sent in state `t`, the reply it gives without a fault plan. */
  predicate AnsweredNaturally(fault: Fault, t: ServerState, c: Call) {
    ReplyTo(fault, t.log + [c], NaturalReply(t, c)) == NaturalReply(t, c)
  }

  /** The server answers `c`, sent in state `t`, with a 2xx status. */
  predicate SucceedsAt(fault: Fault, t: ServerState, c: Call) {
    Succeeded(ReplyTo(fault, t.log + [c], NaturalReply(t, c)))
  }

  /** One request: it is logged, answered, and, when the answer is a success,
      carried out. */
  function Exchange(fault: Fault, t: ServerState, c: Call): (x: Exchanged)
    ensures x.state.log == t.log + [c]
    ensures !Succeeded(x.response.reply) ==> x.state == t.(log := t.log + [c]) && x.response.body == NoBody
    ensures Succeeded(x.response.reply) <==> SucceedsAt(fault, t, c)
    ensures AnsweredNaturally(fault, t, c) <==> x.response.reply == NaturalReply(t, c)
    ensures SucceedsAt(fault, t, c) ==> AnsweredNaturally(fault, t, c)
    ensures Succeeded(x.response.reply) ==>
              x.response.reply == NaturalReply(t, c) && x.response.body == BodyOf(t, c) &&
              x.state == Effect(t, c).(log := t.log + [c])
  {
    var log := t.log + [c];
    var reply := ReplyTo(fault, log, NaturalReply(t, c));
    if Succeeded(reply) then Exchanged(Response(reply, BodyOf(t, c)), Effect(t, c).(log := log))
    else Exchanged(Response(reply, NoBody), t.(log := log))
  }

  /** A read leaves every store as it was. */
  lemma ReadsChangeNothing(fault: Fault, t: ServerState, c: Call)
    requires IsRead(c)
    ensures Exchange(fault, t, c).state == t.(log := t.log + [c])
  {
  }

  /** A contact read changes no store; a body it returns is the stored
      contact; answered naturally it is 200 with the contact, or 404. */
  lemma ContactReadExchange(fault: Fault, t: ServerState, d: string, u: string)
    ensures var c := GetContact(d, u);
            var x := Exchange(fault, t, c);
            var found := FindContact(t.contacts, ContactAddress(d, u));
            x.state == t.(log := t.log + [c]) &&
            (x.response.body.Found? ==> found == Some(x.response.body.contact)) &&
            (AnsweredNaturally(fault, t, c) ==>
               x.response.reply == (if found.Some? then Status(200) else Status(404)) &&
               (found.Some? ==> x.response.body == Found(found.value)))
  {
    var c := GetContact(d, u);
    var found := FindContact(t.contacts, ContactAddress(d, u));
    assert NaturalReply(t, c) == if found.Some? then Status(200) else Status(404);
    assert BodyOf(t, c) == if found.Some? then Found(found.value) else NoBody;
    assert Effect(t, c) == t;
  }

  /** Under a faultless plan every request gets its natural reply. */
  lemma FaultlessRepliesNaturally(fault: Fault, t: ServerState, c: Call)
    requires Faultless(fault)
    ensures AnsweredNaturally(fault, t, c)
    ensures Exchange(fault, t, c).response.reply == NaturalReply(t, c)
  {
    assert fault(t.log + [c]) == None;
  }

  // ----- what a request may change -----

  /** `t'` holds what `t` holds, except possibly `user`'s aliases, the alias owners and the log. */
  ghost predicate OnlyAliasesOf(t: ServerState, t': ServerState, user: string) {
    t'.(aliases := t.aliases, aliasOwners := t.aliasOwners, log := t.log) == t &&
    forall u | u != user :: Lookup(t'.aliases, u) == Lookup(t.aliases, u)
  }

  /** `t'` holds what `t` holds, except possibly `user`'s forwards, the forward owners and the log. */
  ghost predicate OnlyForwardsOf(t: ServerState, t': ServerState, user: string) {
    t'.(forwards := t.forwards, forwardOwners := t.forwardOwners, log := t.log) == t &&
    forall u | u != user :: Lookup(t'.forwards, u) == Lookup(t.forwards, u)
  }

  /** `t'` holds what `t` holds, except possibly `user`'s mappings and the log. */
  ghost predicate OnlyMappingsOf(t: ServerState, t': ServerState, user: string) {
    t'.(mappings := t.mappings, log := t.log) == t &&
    forall u | u != user :: Lookup(t'.mappings, u) == Lookup(t.mappings, u)
  }

  /** `t'` holds what `t` holds, except possibly `user`'s identities and the log. */
  ghost predicate OnlyIdentitiesOf(t: ServerState, t': ServerState, user: string) {
    t'.(identities := t.identities, log := t.log) == t &&
    forall u | u != user :: Lookup(t'.identities, u) == Lookup(t.identities, u)
  }

  /** `t'` holds what `t` holds, except possibly `user`'s quota and the log. */
  ghost predicate OnlyQuotaOf(t: ServerState, t': ServerState, user: string) {
    t'.(quotas := t.quotas, log := t.log) == t &&
    forall u | u != user :: (u in t'.quotas <==> u in t.quotas) && (u in t.quotas ==> t'.quotas[u] == t.quotas[u])
  }

  /** `t'` holds what `t` holds, except possibly the contact stored under `email` and the log. */
  ghost predicate OnlyContactOf(t: ServerState, t': ServerState, email: string) {
    t'.(contacts := t.contacts, log := t.log) == t &&
    forall k: Contact | k.emailAddress != email :: k in t'.contacts <==> k in t.contacts
  }

  /** `t'` holds what `t` holds, except possibly whether `user` is a user, and the log. */
  ghost predicate OnlyUserOf(t: ServerState, t': ServerState, user: string) {
    t'.(users := t.users, log := t.log) == t &&
    forall u | u != user :: u in t'.users <==> u in t.users
  }

  /** The simulated server. */
  class MailServer {
    var users: seq<string>
    var aliases: map<string, seq<Alias>>
    var aliasOwners: seq<string>
    var forwards: map<string, seq<Forward>>
    var forwardOwners: seq<string>
    var mappings: map<string, seq<AddressMappingDto>>
    var quotas: map<string, QuotaSize>
    var identities: map<string, seq<Identity>>
    var contacts: seq<Contact>
    var log: seq<Call>
    const fault: Fault

    function State(): ServerState
      reads this
    {
      ServerState(users, aliases, aliasOwners, forwards, forwardOwners, mappings, quotas, identities, contacts, log)
    }

    constructor(initial: ServerState, fault: Fault)
      ensures State() == initial && this.fault == fault
    {
      users := initial.users;
      aliases := initial.aliases;
      aliasOwners := initial.aliasOwners;
      forwards := initial.forwards;
      forwardOwners := initial.forwardOwners;
      mappings := initial.mappings;
      quotas := initial.quotas;
      identities := initial.identities;
      contacts := initial.contacts;
      log := initial.log;
      this.fault := fault;
    }

    /** Send one request and return the response. */
    method Send(c: Call) returns (response: Response)
      modifies this
      ensures Exchanged(response, State()) == Exchange(fault, old(State()), c)
    {
      var before := State();
      var reply := ReplyTo(fault, log + [c], NaturalReply(before, c));
      if Succeeded(reply) {
        response := Response(reply, BodyOf(before, c));
        Store(Effect(before, c));
      } else {
        response := Response(reply, NoBody);
      }
      log := log + [c];
    }

    /** Replace the stores by those of `s`, keeping the log. */
    method Store(s: ServerState)
      modifies this
      ensures State() == s.(log := old(log))
    {
      users, aliases, aliasOwners := s.users, s.aliases, s.aliasOwners;
      forwards, forwardOwners, mappings := s.forwards, s.forwardOwners, s.mappings;
      quotas, identities, contacts := s.quotas, s.identities, s.contacts;
    }
  }
}
