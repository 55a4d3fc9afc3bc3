/** JamesDao: the connector's client of the webadmin API. Every operation
    sends its requests to the server object and is proved to leave the
    outcome and server state that the matching function of `DaoModel` gives. */
module Dao {
  import opened Outcomes
  import opened Reconcile
  import opened Beans
  import opened IdentityBean
  import opened ContactBean
  import opened Remote
  import DaoModel

  class JamesDao {
    const server: MailServer
    const encode: DaoModel.Encoder

    constructor (server: MailServer, encode: DaoModel.Encoder)
      ensures this.server == server && this.encode == encode
    {
      this.server := server;
      this.encode := encode;
    }

    /** A raw write request, judged by `checkResponse`. */
    method Write(c: Call) returns (r: Outcome<bool>)
      modifies server
      ensures Step(r, server.State()) == DaoModel.Write(server.fault, old(server.State()), c)
    {
      var response := server.Send(c);
      r := DaoModel.WriteOutcome(response.reply);
    }

    /** A typed read of a list of addresses, mapped to users. */
    method ListUsersBy(c: Call) returns (r: Outcome<seq<User>>)
      requires c == ListAliasUsers || c == ListForwardUsers || c == ListUsers || c == ListContacts
      modifies server
      ensures Step(r, server.State()) == DaoModel.ListUsersBy(server.fault, old(server.State()), c)
    {
      var response := server.Send(c);
      var users := DaoModel.ReadOutcome(response.reply, DaoModel.NamesIn(response.body));
      r := if users.Value? then Value(DaoModel.UsersNamed(users.value)) else Thrown(users.error);
    }

    // ----- aliases -----

    method GetAliases(email: string) returns (r: Outcome<seq<Alias>>)
      modifies server
      ensures Step(r, server.State()) == DaoModel.GetAliases(server.fault, old(server.State()), email)
    {
      var response := server.Send(ListAliases(email));
      r := DaoModel.ReadOutcome(response.reply, DaoModel.AliasesIn(response.body));
      if r == Value([]) {
        r := Thrown(NotFound);
      }
    }

    method CreateAlias(user: User, alias: Alias) returns (r: Outcome<bool>)
      modifies server
      ensures Step(r, server.State()) == DaoModel.CreateAlias(server.fault, encode, old(server.State()), user, alias)
    {
      if encode(alias.source).None? {
        return Value(false);
      }
      r := Write(PutAlias(user.email, alias));
    }

    method CreateAliases(user: User, aliasesToAdd: seq<Alias>) returns (r: Outcome<bool>)
      modifies server
      ensures Step(r, server.State()) == DaoModel.CreateAliases(server.fault, encode, old(server.State()), user, aliasesToAdd)
    {
      ghost var write := DaoModel.AliasCreation(server.fault, encode, user);
      ghost var s0 := server.State();
      for i := 0 to |aliasesToAdd|
        invariant Fold(s0, aliasesToAdd[..i], write) == Step(Value(true), server.State())
      {
        FoldExtend(s0, aliasesToAdd, write, i);
        r := CreateAlias(user, aliasesToAdd[i]);
        if r != Value(true) {
          FoldStopsAtFirstFailure(s0, aliasesToAdd, write, i);
          return;
        }
      }
      assert aliasesToAdd[..|aliasesToAdd|] == aliasesToAdd;
      r := Value(true);
    }

    method RemoveAlias(user: User, alias: Alias) returns (r: Outcome<bool>)
      modifies server
      ensures Step(r, server.State()) == DaoModel.RemoveAlias(server.fault, encode, old(server.State()), user, alias)
    {
      if encode(alias.source).None? {
        return Value(false);
      }
      r := Write(DeleteAlias(user.email, alias));
    }

    method RemoveAliases(user: User, aliasesToRemove: seq<Alias>) returns (r: Outcome<bool>)
      modifies server
      ensures Step(r, server.State()) == DaoModel.RemoveAliases(server.fault, encode, old(server.State()), user, aliasesToRemove)
    {
      ghost var write := DaoModel.AliasRemoval(server.fault, encode, user);
      ghost var s0 := server.State();
      for i := 0 to |aliasesToRemove|
        invariant Fold(s0, aliasesToRemove[..i], write) == Step(Value(true), server.State())
      {
        FoldExtend(s0, aliasesToRemove, write, i);
        r := RemoveAlias(user, aliasesToRemove[i]);
        if r != Value(true) {
          FoldStopsAtFirstFailure(s0, aliasesToRemove, write, i);
          return;
        }
      }
      assert aliasesToRemove[..|aliasesToRemove|] == aliasesToRemove;
      r := Value(true);
    }

    method UpdateAliases(user: User, updatedAliases: seq<Alias>) returns (r: Outcome<bool>)
      modifies server
      ensures Step(r, server.State()) == DaoModel.UpdateAliases(server.fault, encode, old(server.State()), user, updatedAliases)
    {
      var aliasesInDestination := GetAliases(user.email);
      if aliasesInDestination.Thrown? {
        return Thrown(aliasesInDestination.error);
      }
      var aliasesToAdd := DaoModel.ComputeToAdd(updatedAliases, aliasesInDestination.value);
      var aliasesToRemove := DaoModel.ComputeToRemove(updatedAliases, aliasesInDestination.value);
      r := RemoveAliases(user, aliasesToRemove);
      if r == Value(true) {
        r := CreateAliases(user, aliasesToAdd);
      }
    }

    method DeleteAliases(user: User) returns (r: Outcome<bool>)
      modifies server
      ensures Step(r, server.State()) == DaoModel.DeleteAliases(server.fault, encode, old(server.State()), user)
    {
      var aliasesToRemove := GetAliases(user.email);
      if aliasesToRemove.Thrown? {
        return Thrown(aliasesToRemove.error);
      }
      r := RemoveAliases(user, aliasesToRemove.value);
    }

    method GetUsersListViaAlias() returns (r: Outcome<seq<User>>)
      modifies server
      ensures Step(r, server.State()) == DaoModel.GetUsersListViaAlias(server.fault, old(server.State()))
    {
      r := ListUsersBy(ListAliasUsers);
    }

    // ----- forwards -----

    method GetForwards(email: string) returns (r: Outcome<seq<Forward>>)
      modifies server
      ensures Step(r, server.State()) == DaoModel.GetForwards(server.fault, old(server.State()), email)
    {
      var response := server.Send(ListForwards(email));
      r := DaoModel.ReadOutcome(response.reply, DaoModel.ForwardsIn(response.body));
      if r == Value([]) {
        r := Thrown(NotFound);
      }
    }

    method CreateForward(user: User, forward: Forward) returns (r: Outcome<bool>)
      modifies server
      ensures Step(r, server.State()) == DaoModel.CreateForward(server.fault, encode, old(server.State()), user, forward)
    {
      if encode(forward.mailAddress).None? {
        return Value(false);
      }
      r := Write(PutForward(user.email, forward));
    }

    method CreateForwards(user: User, forwardsToAdd: seq<Forward>) returns (r: Outcome<bool>)
      modifies server
      ensures Step(r, server.State()) == DaoModel.CreateForwards(server.fault, encode, old(server.State()), user, forwardsToAdd)
    {
      ghost var write := DaoModel.ForwardCreation(server.fault, encode, user);
      ghost var s0 := server.State();
      for i := 0 to |forwardsToAdd|
        invariant Fold(s0, forwardsToAdd[..i], write) == Step(Value(true), server.State())
      {
        FoldExtend(s0, forwardsToAdd, write, i);
        r := CreateForward(user, forwardsToAdd[i]);
        if r != Value(true) {
          FoldStopsAtFirstFailure(s0, forwardsToAdd, write, i);
          return;
        }
      }
      assert forwardsToAdd[..|forwardsToAdd|] == forwardsToAdd;
      r := Value(true);
    }

    method DeleteForward(user: User, forward: Forward) returns (r: Outcome<bool>)
      modifies server
      ensures Step(r, server.State()) == DaoModel.DeleteForward(server.fault, encode, old(server.State()), user, forward)
    {
      if encode(forward.mailAddress).None? {
        return Value(false);
      }
      r := Write(Remote.DeleteForward(user.email, forward));
    }

    method DeleteForwardsIn(user: User, forwardsToDelete: seq<Forward>) returns (r: Outcome<bool>)
      modifies server
      ensures Step(r, server.State()) == DaoModel.DeleteForwardsIn(server.fault, encode, old(server.State()), user, forwardsToDelete)
    {
      ghost var write := DaoModel.ForwardDeletion(server.fault, encode, user);
      ghost var s0 := server.State();
      for i := 0 to |forwardsToDelete|
        invariant Fold(s0, forwardsToDelete[..i], write) == Step(Value(true), server.State())
      {
        FoldExtend(s0, forwardsToDelete, write, i);
        r := DeleteForward(user, forwardsToDelete[i]);
        if r != Value(true) {
          FoldStopsAtFirstFailure(s0, forwardsToDelete, write, i);
          return;
        }
      }
      assert forwardsToDelete[..|forwardsToDelete|] == forwardsToDelete;
      r := Value(true);
    }

    method UpdateForwards(user: User, ldapForwards: seq<Forward>, allowSynchronizeLocalCopyForwards: bool) returns (r: Outcome<bool>)
      modifies server
      ensures Step(r, server.State()) ==
              DaoModel.UpdateForwards(server.fault, encode, old(server.State()), user, ldapForwards, allowSynchronizeLocalCopyForwards)
    {
      var jamesForwards := GetForwards(user.email);
      if jamesForwards.Thrown? {
        return Thrown(jamesForwards.error);
      }
      var forwardsToAddToJames := DaoModel.ComputeForwardsToAdd(user, ldapForwards, jamesForwards.value, allowSynchronizeLocalCopyForwards);
      r := CreateForwards(user, forwardsToAddToJames);
    }

    method DeleteForwards(user: User) returns (r: Outcome<bool>)
      modifies server
      ensures Step(r, server.State()) == DaoModel.DeleteForwards(server.fault, encode, old(server.State()), user)
    {
      var forwardsToDelete := GetForwards(user.email);
      if forwardsToDelete.Thrown? {
        return Thrown(forwardsToDelete.error);
      }
      r := DeleteForwardsIn(user, forwardsToDelete.value);
    }

    method GetUsersHaveForwards() returns (r: Outcome<seq<User>>)
      modifies server
      ensures Step(r, server.State()) == DaoModel.GetUsersHaveForwards(server.fault, old(server.State()))
    {
      r := ListUsersBy(ListForwardUsers);
    }

    // ----- address mappings -----

    method GetAddressMappings(email: string) returns (r: Outcome<seq<AddressMapping>>)
      modifies server
      ensures Step(r, server.State()) == DaoModel.GetAddressMappings(server.fault, old(server.State()), email)
    {
      var response := server.Send(ListMappings(email));
      var entries := DaoModel.ReadOutcome(response.reply, DaoModel.MappingsIn(response.body));
      r := if entries.Value? then Value(DaoModel.AddressMappingsOf(entries.value)) else Thrown(entries.error);
    }

    method CreateAddressMapping(user: User, addressMapping: AddressMapping) returns (r: Outcome<bool>)
      modifies server
      ensures Step(r, server.State()) == DaoModel.CreateAddressMapping(server.fault, old(server.State()), user, addressMapping)
    {
      r := Write(PostMapping(user.email, addressMapping));
    }

    method CreateAddressMappings(user: User, addressMappingsToAdd: seq<AddressMapping>) returns (r: Outcome<bool>)
      modifies server
      ensures Step(r, server.State()) ==
              DaoModel.CreateAddressMappings(server.fault, old(server.State()), user, addressMappingsToAdd)
    {
      ghost var write := DaoModel.MappingCreation(server.fault, user);
      ghost var s0 := server.State();
      for i := 0 to |addressMappingsToAdd|
        invariant Fold(s0, addressMappingsToAdd[..i], write) == Step(Value(true), server.State())
      {
        FoldExtend(s0, addressMappingsToAdd, write, i);
        r := CreateAddressMapping(user, addressMappingsToAdd[i]);
        if r != Value(true) {
          FoldStopsAtFirstFailure(s0, addressMappingsToAdd, write, i);
          return;
        }
      }
      assert addressMappingsToAdd[..|addressMappingsToAdd|] == addressMappingsToAdd;
      r := Value(true);
    }

    method RemoveAddressMapping(user: User, addressMapping: AddressMapping) returns (r: Outcome<bool>)
      modifies server
      ensures Step(r, server.State()) == DaoModel.RemoveAddressMapping(server.fault, old(server.State()), user, addressMapping)
    {
      r := Write(DeleteMapping(user.email, addressMapping));
    }

    method RemoveAddressMappingsIn(user: User, addressMappingsToRemove: seq<AddressMapping>) returns (r: Outcome<bool>)
      modifies server
      ensures Step(r, server.State()) ==
              DaoModel.RemoveAddressMappingsIn(server.fault, old(server.State()), user, addressMappingsToRemove)
    {
      ghost var write := DaoModel.MappingRemoval(server.fault, user);
      ghost var s0 := server.State();
      for i := 0 to |addressMappingsToRemove|
        invariant Fold(s0, addressMappingsToRemove[..i], write) == Step(Value(true), server.State())
      {
        FoldExtend(s0, addressMappingsToRemove, write, i);
        r := RemoveAddressMapping(user, addressMappingsToRemove[i]);
        if r != Value(true) {
          FoldStopsAtFirstFailure(s0, addressMappingsToRemove, write, i);
          return;
        }
      }
      assert addressMappingsToRemove[..|addressMappingsToRemove|] == addressMappingsToRemove;
      r := Value(true);
    }

    method UpdateAddressMappings(user: User, ldapAddressMappings: seq<AddressMapping>) returns (r: Outcome<bool>)
      modifies server
      ensures Step(r, server.State()) ==
              DaoModel.UpdateAddressMappings(server.fault, old(server.State()), user, ldapAddressMappings)
    {
      var jamesAddressMappings := GetAddressMappings(user.email);
      if jamesAddressMappings.Thrown? {
        return Thrown(jamesAddressMappings.error);
      }
      var toAdd := DaoModel.ComputeToAdd(ldapAddressMappings, jamesAddressMappings.value);
      var toRemove := DaoModel.ComputeToRemove(ldapAddressMappings, jamesAddressMappings.value);
      r := CreateAddressMappings(user, toAdd);
      if r == Value(true) {
        r := RemoveAddressMappingsIn(user, toRemove);
      }
    }

    method RemoveAddressMappings(user: User) returns (r: Outcome<bool>)
      modifies server
      ensures Step(r, server.State()) == DaoModel.RemoveAddressMappings(server.fault, old(server.State()), user)
    {
      var toRemove := GetAddressMappings(user.email);
      if toRemove.Thrown? {
        return Thrown(toRemove.error);
      }
      r := RemoveAddressMappingsIn(user, toRemove.value);
    }

    // ----- identities -----

    method GetDefaultIdentity(email: string) returns (r: Outcome<Identity>)
      modifies server
      ensures Step(r, server.State()) == DaoModel.GetDefaultIdentity(server.fault, old(server.State()), email)
    {
      var response := server.Send(ListIdentities(email));
      var identities := DaoModel.ReadOutcome(response.reply, DaoModel.IdentitiesIn(response.body));
      if identities.Thrown? {
        return Thrown(identities.error);
      }
      if identities.value == [] {
        return Thrown(NotFound);
      }
      r := Value(identities.value[0]);
    }

    method CreateDefaultIdentity(identity: Identity) returns (r: Outcome<bool>)
      modifies server
      ensures Step(r, server.State()) == DaoModel.CreateDefaultIdentity(server.fault, old(server.State()), identity)
    {
      r := Write(PostIdentity(identity));
    }

    // ----- users -----

    method AddUser(user: User, password: string) returns (r: Outcome<bool>)
      modifies server
      ensures Step(r, server.State()) == DaoModel.AddUser(server.fault, old(server.State()), user, password)
    {
      r := Write(PutUser(user.email, password));
    }

    method RemoveUser(user: User) returns (r: Outcome<bool>)
      modifies server
      ensures Step(r, server.State()) == DaoModel.RemoveUser(server.fault, old(server.State()), user)
    {
      r := Write(DeleteUser(user.email));
    }

    method GetUserList() returns (r: Outcome<seq<User>>)
      modifies server
      ensures Step(r, server.State()) == DaoModel.GetUserList(server.fault, old(server.State()))
    {
      r := ListUsersBy(ListUsers);
    }

    method UserExists(user: string) returns (r: Outcome<bool>)
      modifies server
      ensures Step(r, server.State()) == DaoModel.UserExists(server.fault, old(server.State()), user)
    {
      var response := server.Send(HeadUser(user));
      match response.reply {
        case NoReply =>
          r := Thrown(Processing);
        case Status(code) =>
          if code == DaoModel.HttpStatusCodeUserExists {
            r := Value(true);
          } else if code == DaoModel.HttpStatusCodeUserDoesNotExist {
            r := Value(false);
          } else {
            r := Thrown(JamesClient(code));
          }
      }
    }

    // ----- contacts -----

    method AddDomainContact(contact: Contact) returns (r: Outcome<bool>)
      modifies server
      ensures Step(r, server.State()) == DaoModel.AddDomainContact(server.fault, old(server.State()), contact)
    {
      r := Write(PostContact(contact.GetDomain(), contact));
    }

    method GetUsersListViaDomainContacts() returns (r: Outcome<seq<User>>)
      modifies server
      ensures Step(r, server.State()) == DaoModel.GetUsersListViaDomainContacts(server.fault, old(server.State()))
    {
      r := ListUsersBy(ListContacts);
    }

    method GetContact(email: string) returns (r: Outcome<Contact>)
      modifies server
      ensures Step(r, server.State()) == DaoModel.GetContact(server.fault, old(server.State()), email)
    {
      var username := ExtractUsernameFromEmail(email);
      if username.Thrown? {
        return Thrown(username.error);
      }
      var response := server.Send(Remote.GetContact(ExtractDomainFromEmail(email), username.value));
      match response.reply {
        case NoReply =>
          r := Thrown(Processing);
        case Status(code) =>
          if !DaoModel.CheckResponse(code) {
            r := Thrown(NotFound);
          } else if response.body.Found? {
            r := Value(response.body.contact);
          } else {
            r := Thrown(Io);
          }
      }
    }

    method UpdateDomainContact(contact: Contact) returns (r: Outcome<bool>)
      modifies server
      ensures Step(r, server.State()) == DaoModel.UpdateDomainContact(server.fault, old(server.State()), contact)
    {
      var username := contact.GetUsernameFromEmail();
      if username.Thrown? {
        return Thrown(username.error);
      }
      r := Write(PutContactNames(contact.GetDomain(), username.value, contact.GetContactNames()));
    }

    method RemoveDomainContact(email: string) returns (r: Outcome<bool>)
      modifies server
      ensures Step(r, server.State()) == DaoModel.RemoveDomainContact(server.fault, old(server.State()), email)
    {
      var username := ExtractUsernameFromEmail(email);
      if username.Thrown? {
        return Thrown(username.error);
      }
      r := Write(Remote.DeleteContact(ExtractDomainFromEmail(email), username.value));
    }

    // ----- quotas -----

    method GetQuotaSize(email: string) returns (r: Outcome<Option<QuotaSize>>)
      modifies server
      ensures Step(r, server.State()) == DaoModel.GetQuotaSize(server.fault, old(server.State()), email)
    {
      var response := server.Send(GetQuota(email));
      r := DaoModel.ReadOutcome(response.reply, DaoModel.QuotaIn(response.body));
    }

    method SetQuotaSize(user: User, size: QuotaSize) returns (r: Outcome<bool>)
      modifies server
      ensures Step(r, server.State()) == DaoModel.SetQuotaSize(server.fault, old(server.State()), user, size)
    {
      r := Write(PutQuota(user.email, size));
    }

    method DeleteQuotaSize(user: User) returns (r: Outcome<bool>)
      modifies server
      ensures Step(r, server.State()) == DaoModel.DeleteQuotaSize(server.fault, old(server.State()), user)
    {
      r := Write(DeleteQuota(user.email));
    }
  }
}
