/** JamesAddressMappingDstService: synchronises a user's "Address" mappings
    (the "addressMappings" attribute) with the mail server. Mappings are
    provisioned only for an existing user, by an update, never by a create. */
module AddressMappingDst {
  import opened Outcomes
  import opened Sequences
  import opened Reconcile
  import opened Beans
  import opened Remote
  import opened Lsc
  import opened DaoModel
  import DaoProperties
  import Dao

  const AddressMappingAttribute: string := "addressMappings"

  function MappingTargets(mappings: seq<AddressMapping>): seq<string> {
    MapSeq((m: AddressMapping) => m.mapping, mappings)
  }

  /** `addressMappingsFromLDAP`: one mapping per value of "addressMappings",
      in order; absent when the attribute is. */
  function AddressMappingsFromLdap(lm: Modifications): (r: Option<seq<AddressMapping>>)
    ensures r.Some? <==> AddressMappingAttribute in lm.items
    ensures r.Some? ==> MappingTargets(r.value) == lm.items[AddressMappingAttribute]
  {
    var values := lm.Item(AddressMappingAttribute);
    if values.Some? then Some(MapSeq((s: string) => AddressMapping(s), values.value)) else None
  }

  /** `toDataset`: the email and the mappings' targets, in order. */
  function ToDataset(email: string, mappings: seq<AddressMapping>): (d: Datasets)
    ensures d.Keys == {"email", AddressMappingAttribute}
    ensures d["email"] == Text(email) && d[AddressMappingAttribute] == Texts(MappingTargets(mappings))
  {
    map["email" := Text(email), AddressMappingAttribute := Texts(MappingTargets(mappings))]
  }

  /** `getBean`: no bean without a pivot email; no bean for a user the server
      does not know (and then no second request); otherwise the user's
      mappings, a bean even when there are none. A NotFoundException is not
      caught apart: like any WebApplicationException it becomes an
      LscServiceException, and a JamesClientException from `userExists` escapes. */
  function GetBeanOutcome(fault: Fault, t: ServerState, pivotAttributes: seq<PivotAttribute>): (r: DaoStep<Option<Bean>>)
    ensures PivotEmail(pivotAttributes).None? ==> r == Step(Value(None), t)
    ensures PivotEmail(pivotAttributes).Some? ==>
              var email := PivotEmail(pivotAttributes).value;
              var afterHead := t.(log := t.log + [HeadUser(email)]);
              (AnsweredNaturally(fault, t, HeadUser(email)) && email !in t.users ==> r == Step(Value(None), afterHead)) &&
              (AnsweredNaturally(fault, t, HeadUser(email)) && email in t.users ==>
                 r.state == afterHead.(log := afterHead.log + [ListMappings(email)]) &&
                 (SucceedsAt(fault, afterHead, ListMappings(email)) ==>
                    r.out == Value(Some(Bean(email, ToDataset(email, AddressMappingsOf(Lookup(t.mappings, email))))))))
    ensures r.out.Thrown? ==> r.out.error == LscServiceCommunication || r.out.error == LscService || r.out.error.JamesClient?
  {
    var email := PivotEmail(pivotAttributes);
    if email.None? then Step(Value(None), t)
    else
      var known := UserExists(fault, t, email.value);
      if known.out.Thrown? then Step(BeanOutcome(Thrown(known.out.error), false, false), known.state)
      else if !known.out.value then Step(Value(None), known.state)
      else
        var read := GetAddressMappings(fault, known.state, email.value);
        var bean := if read.out.Value? then Value(Some(Bean(email.value, ToDataset(email.value, read.out.value)))) else Thrown(read.out.error);
        Step(BeanOutcome(bean, false, false), read.state)
  }

  /** The `switch` of `apply`, before its catch clauses. */
  function Dispatch(fault: Fault, t: ServerState, lm: Modifications, user: User): DaoStep<bool> {
    match lm.operation
    case ChangeId => Step(Value(true), t)
    case CreateObject => Step(Value(true), t)
    case UpdateObject =>
      var ldapMappings := AddressMappingsFromLdap(lm);
      if ldapMappings.Some? then UpdateAddressMappings(fault, t, user, ldapMappings.value) else Step(Value(false), t)
    case DeleteObject => RemoveAddressMappings(fault, t, user)
  }

  /** `apply` */
  function ApplyOutcome(fault: Fault, t: ServerState, lm: Modifications): (r: DaoStep<bool>)
    ensures lm.mainIdentifier.None? ==> r == Step(Value(false), t)
    ensures lm.mainIdentifier.Some? && (lm.operation == ChangeId || lm.operation == CreateObject) ==> r == Step(Value(true), t)
    ensures lm.mainIdentifier.Some? && lm.operation == UpdateObject && AddressMappingAttribute !in lm.items ==> r == Step(Value(false), t)
  {
    if lm.mainIdentifier.None? then Step(Value(false), t)
    else
      var w := Dispatch(fault, t, lm, User(lm.mainIdentifier.value));
      Step(CatchNotFoundAndProcessing(w.out), w.state)
  }

  /** Whatever the operation, `apply` changes no other user's mappings and
      nothing but mappings. */
  lemma ApplyTouchesOnlyTheUser(fault: Fault, t: ServerState, lm: Modifications)
    requires lm.mainIdentifier.Some?
    ensures OnlyMappingsOf(t, ApplyOutcome(fault, t, lm).state, lm.mainIdentifier.value)
  {
    var user := User(lm.mainIdentifier.value);
    match lm.operation
    case ChangeId =>
    case CreateObject =>
    case UpdateObject =>
      if AddressMappingAttribute in lm.items {
        DaoProperties.UpdateAddressMappingsTouchesOnlyTheUser(fault, t, user, AddressMappingsFromLdap(lm).value);
      }
    case DeleteObject =>
      DaoProperties.RemoveAddressMappingsEmpties(fault, t, user);
  }

  /** UPDATE that answers true leaves the user with exactly the listed
      "Address" mappings, so a second UPDATE would write nothing. */
  lemma ApplyUpdateConverges(fault: Fault, t: ServerState, lm: Modifications)
    requires lm.mainIdentifier.Some? && lm.operation == UpdateObject
    ensures var r := ApplyOutcome(fault, t, lm);
            var held := AddressMappingsOf(Lookup(r.state.mappings, lm.mainIdentifier.value));
            r.out == Value(true) ==>
              AddressMappingAttribute in lm.items &&
              Members(MappingTargets(held)) == Members(lm.items[AddressMappingAttribute]) &&
              ComputeToAdd(AddressMappingsFromLdap(lm).value, held) == [] &&
              ComputeToRemove(AddressMappingsFromLdap(lm).value, held) == []
  {
    if AddressMappingAttribute in lm.items {
      var ldapMappings := AddressMappingsFromLdap(lm).value;
      DaoProperties.UpdateAddressMappingsConverges(fault, t, User(lm.mainIdentifier.value), ldapMappings);
      var r := ApplyOutcome(fault, t, lm);
      if r.out == Value(true) {
        var held := AddressMappingsOf(Lookup(r.state.mappings, lm.mainIdentifier.value));
        SameTargets(held, ldapMappings);
      }
    }
  }

  /** Lists of mappings with the same members have the same targets. */
  lemma SameTargets(a: seq<AddressMapping>, b: seq<AddressMapping>)
    requires Members(a) == Members(b)
    ensures Members(MappingTargets(a)) == Members(MappingTargets(b))
  {
    forall s | s in Members(MappingTargets(a))
      ensures s in Members(MappingTargets(b))
    {
      var i :| 0 <= i < |a| && MappingTargets(a)[i] == s;
      assert a[i] in Members(b);
      var j :| 0 <= j < |b| && b[j] == a[i];
      assert MappingTargets(b)[j] == s;
    }
    forall s | s in Members(MappingTargets(b))
      ensures s in Members(MappingTargets(a))
    {
      var j :| 0 <= j < |b| && MappingTargets(b)[j] == s;
      assert b[j] in Members(a);
      var i :| 0 <= i < |a| && a[i] == b[j];
      assert MappingTargets(a)[i] == s;
    }
  }

  /** With a faultless server UPDATE always answers true, for a user without
      mappings too (an empty list is no NotFoundException here). */
  lemma ApplyUpdateFaultless(fault: Fault, t: ServerState, lm: Modifications)
    requires Faultless(fault)
    requires lm.mainIdentifier.Some? && lm.operation == UpdateObject && AddressMappingAttribute in lm.items
    ensures ApplyOutcome(fault, t, lm).out == Value(true)
  {
    DaoProperties.UpdateAddressMappingsFaultless(fault, t, User(lm.mainIdentifier.value), AddressMappingsFromLdap(lm).value);
  }

  /** DELETE that answers true leaves the user without "Address" mappings. */
  lemma ApplyDeleteEmpties(fault: Fault, t: ServerState, lm: Modifications)
    requires lm.mainIdentifier.Some? && lm.operation == DeleteObject
    ensures var r := ApplyOutcome(fault, t, lm);
            r.out == Value(true) ==> AddressMappingsOf(Lookup(r.state.mappings, lm.mainIdentifier.value)) == []
  {
    DaoProperties.RemoveAddressMappingsEmpties(fault, t, User(lm.mainIdentifier.value));
  }

  /** What escapes `apply` is only a read's unexpected status. */
  lemma ApplyThrowsOnlyWebApplication(fault: Fault, t: ServerState, lm: Modifications)
    ensures var r := ApplyOutcome(fault, t, lm);
            r.out.Thrown? ==> r.out.error.WebApplication?
  {
    if lm.mainIdentifier.Some? {
      DaoProperties.MappingOperationsThrowReadErrors(fault, t, User(lm.mainIdentifier.value), AddressMappingsFromLdap(lm).GetOr([]));
    }
  }

  class JamesAddressMappingDstService {
    const jamesDao: Dao.JamesDao

    constructor (jamesDao: Dao.JamesDao)
      ensures this.jamesDao == jamesDao
    {
      this.jamesDao := jamesDao;
    }

    method GetBean(pivotAttributes: seq<PivotAttribute>) returns (r: Outcome<Option<Bean>>)
      modifies jamesDao.server
      ensures Step(r, jamesDao.server.State()) == GetBeanOutcome(jamesDao.server.fault, old(jamesDao.server.State()), pivotAttributes)
    {
      var email := PivotEmail(pivotAttributes);
      if email.None? {
        return Value(None);
      }
      var known := jamesDao.UserExists(email.value);
      if known.Thrown? {
        return BeanOutcome(Thrown(known.error), false, false);
      }
      if !known.value {
        return Value(None);
      }
      var addressMappings := jamesDao.GetAddressMappings(email.value);
      var bean := if addressMappings.Value? then Value(Some(Bean(email.value, ToDataset(email.value, addressMappings.value)))) else Thrown(addressMappings.error);
      r := BeanOutcome(bean, false, false);
    }

    method GetListPivots(toDatasets: User -> Datasets) returns (r: Outcome<map<string, Datasets>>)
      modifies jamesDao.server
      ensures Step(r, jamesDao.server.State()) == UserPivotsOutcome(jamesDao.server.fault, old(jamesDao.server.State()), toDatasets)
    {
      var userList := jamesDao.GetUserList();
      if userList.Thrown? {
        return PivotsOutcome(userList, toDatasets);
      }
      var listPivots := CollectPivots(userList.value, toDatasets);
      r := Value(listPivots);
    }

    method Apply(lm: Modifications) returns (r: Outcome<bool>)
      modifies jamesDao.server
      ensures Step(r, jamesDao.server.State()) == ApplyOutcome(jamesDao.server.fault, old(jamesDao.server.State()), lm)
    {
      if lm.mainIdentifier.None? {
        return Value(false);
      }
      var user := User(lm.mainIdentifier.value);
      var written: Outcome<bool>;
      match lm.operation {
        case ChangeId =>
          written := Value(true);
        case CreateObject =>
          written := Value(true);
        case UpdateObject =>
          var ldapAddressMappings := AddressMappingsFromLdap(lm);
          if ldapAddressMappings.Some? {
            written := jamesDao.UpdateAddressMappings(user, ldapAddressMappings.value);
          } else {
            written := Value(false);
          }
        case DeleteObject =>
          written := jamesDao.RemoveAddressMappings(user);
      }
      r := CatchNotFoundAndProcessing(written);
    }
  }
}
