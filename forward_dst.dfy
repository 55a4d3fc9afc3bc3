/** JamesForwardDstService: synchronises a user's forwards (the "forwards"
    attribute) with the mail server. Forwards are only ever added by an
    update; a forward to the user's own address (a local copy) is added by an
    update only when the service allows it. */
module ForwardDst {
  import opened Outcomes
  import opened Sequences
  import opened Reconcile
  import opened Beans
  import opened Remote
  import opened Lsc
  import opened DaoModel
  import DaoProperties
  import Dao

  const ForwardsAttribute: string := "forwards"

  function ForwardAddresses(forwards: seq<Forward>): seq<string> {
    MapSeq((f: Forward) => f.mailAddress, forwards)
  }

  /** `forwardsFromSource`: one forward per value of "forwards", in order;
      absent when the attribute is. */
  function ForwardsFromSource(lm: Modifications): (r: Option<seq<Forward>>)
    ensures r.Some? <==> ForwardsAttribute in lm.items
    ensures r.Some? ==> ForwardAddresses(r.value) == lm.items[ForwardsAttribute]
  {
    var values := lm.Item(ForwardsAttribute);
    if values.Some? then Some(MapSeq((s: string) => Forward(s), values.value)) else None
  }

  /** `toDataset`: the email and the forwards' addresses, in order. */
  function ToDataset(email: string, forwards: seq<Forward>): (d: Datasets)
    ensures d.Keys == {"email", ForwardsAttribute}
    ensures d["email"] == Text(email) && d[ForwardsAttribute] == Texts(ForwardAddresses(forwards))
  {
    map["email" := Text(email), ForwardsAttribute := Texts(ForwardAddresses(forwards))]
  }

  /** `getBean`: no bean without a pivot email; otherwise the user's forwards,
      no bean when there are none (NotFoundException). */
  function GetBeanOutcome(fault: Fault, t: ServerState, pivotAttributes: seq<PivotAttribute>): (r: DaoStep<Option<Bean>>)
    ensures PivotEmail(pivotAttributes).None? ==> r == Step(Value(None), t)
    ensures PivotEmail(pivotAttributes).Some? ==>
              var email := PivotEmail(pivotAttributes).value;
              var held := Lookup(t.forwards, email);
              r.state == t.(log := t.log + [ListForwards(email)]) &&
              (SucceedsAt(fault, t, ListForwards(email)) ==>
                 r.out == if held == [] then Value(None) else Value(Some(Bean(email, ToDataset(email, held))))) &&
              (!SucceedsAt(fault, t, ListForwards(email)) ==> r.out.Thrown? || r.out == Value(None))
  {
    var email := PivotEmail(pivotAttributes);
    if email.None? then Step(Value(None), t)
    else
      var read := GetForwards(fault, t, email.value);
      var bean := if read.out.Value? then Value(Some(Bean(email.value, ToDataset(email.value, read.out.value)))) else Thrown(read.out.error);
      Step(BeanOutcome(bean, true, false), read.state)
  }

  /** `getListPivots`: one pivot per user that has forwards. */
  function ListPivotsOutcome(fault: Fault, t: ServerState, toDatasets: User -> Datasets): (r: DaoStep<map<string, Datasets>>)
    ensures r.state == t.(log := t.log + [ListForwardUsers])
    ensures SucceedsAt(fault, t, ListForwardUsers) <==> r.out.Value?
    ensures r.out.Value? ==> forall u :: u in r.out.value <==> u in t.forwardOwners && Lookup(t.forwards, u) != []
  {
    var listing := GetUsersHaveForwards(fault, t);
    PivotKeysOfNames(Holders(t.forwardOwners, t.forwards), toDatasets);
    assert listing.out.Value? ==> listing.out.value == DaoModel.UsersNamed(Holders(t.forwardOwners, t.forwards));
    Step(PivotsOutcome(listing.out, toDatasets), listing.state)
  }

  /** The `switch` of `apply`, before its catch clauses. */
  function Dispatch(fault: Fault, encode: Encoder, allow: bool, t: ServerState, lm: Modifications, user: User): DaoStep<bool> {
    match lm.operation
    case ChangeId => Step(Value(true), t)
    case CreateObject => CreateForwards(fault, encode, t, user, ForwardsFromSource(lm).GetOr([]))
    case UpdateObject =>
      var ldapForwards := ForwardsFromSource(lm);
      if ldapForwards.Some? then UpdateForwards(fault, encode, t, user, ldapForwards.value, allow) else Step(Value(false), t)
    case DeleteObject => DeleteForwards(fault, encode, t, user)
  }

  /** `apply`, for a service whose local-copy flag is `allow`. */
  function ApplyOutcome(fault: Fault, encode: Encoder, allow: bool, t: ServerState, lm: Modifications): (r: DaoStep<bool>)
    ensures lm.mainIdentifier.None? ==> r == Step(Value(false), t)
    ensures lm.mainIdentifier.Some? && lm.operation == ChangeId ==> r == Step(Value(true), t)
    ensures lm.mainIdentifier.Some? && lm.operation == CreateObject && ForwardsAttribute !in lm.items ==> r == Step(Value(true), t)
    ensures lm.mainIdentifier.Some? && lm.operation == UpdateObject && ForwardsAttribute !in lm.items ==> r == Step(Value(false), t)
  {
    if lm.mainIdentifier.None? then Step(Value(false), t)
    else
      var w := Dispatch(fault, encode, allow, t, lm, User(lm.mainIdentifier.value));
      Step(CatchNotFoundAndProcessing(w.out), w.state)
  }

  /** Whatever the operation, `apply` changes no other user's forwards and
      nothing but forwards. */
  lemma ApplyTouchesOnlyTheUser(fault: Fault, encode: Encoder, allow: bool, t: ServerState, lm: Modifications)
    requires lm.mainIdentifier.Some?
    ensures OnlyForwardsOf(t, ApplyOutcome(fault, encode, allow, t, lm).state, lm.mainIdentifier.value)
  {
    var user := User(lm.mainIdentifier.value);
    match lm.operation
    case ChangeId =>
    case CreateObject =>
      DaoProperties.CreateForwardsAdds(fault, encode, t, user, ForwardsFromSource(lm).GetOr([]));
    case UpdateObject =>
      if ForwardsAttribute in lm.items {
        DaoProperties.UpdateForwardsOnlyAdds(fault, encode, t, user, ForwardsFromSource(lm).value, allow);
      }
    case DeleteObject =>
      DaoProperties.DeleteForwardsEmpties(fault, encode, t, user);
  }

  /** CREATE writes every listed forward, local copies included, one request
      each in order; when it answers true the user holds all of them. */
  lemma ApplyCreateAdds(fault: Fault, encode: Encoder, allow: bool, t: ServerState, lm: Modifications)
    requires lm.mainIdentifier.Some? && lm.operation == CreateObject
    ensures var r := ApplyOutcome(fault, encode, allow, t, lm);
            var email := lm.mainIdentifier.value;
            var forwards := ForwardsFromSource(lm).GetOr([]);
            r.out == Value(true) ==>
              Members(Lookup(r.state.forwards, email)) == Members(Lookup(t.forwards, email)) + Members(forwards) &&
              r.state.log == t.log + MapSeq(DaoProperties.ForwardCreationRequest(email), forwards)
  {
    DaoProperties.CreateForwardsAdds(fault, encode, t, User(lm.mainIdentifier.value), ForwardsFromSource(lm).GetOr([]));
  }

  /** UPDATE never removes a forward, and every forward it adds is one of the
      listed forwards, never a local copy unless those are allowed. */
  lemma ApplyUpdateOnlyAdds(fault: Fault, encode: Encoder, allow: bool, t: ServerState, lm: Modifications)
    requires lm.mainIdentifier.Some? && lm.operation == UpdateObject
    ensures var r := ApplyOutcome(fault, encode, allow, t, lm);
            var email := lm.mainIdentifier.value;
            var before := Lookup(t.forwards, email);
            var after := Lookup(r.state.forwards, email);
            Members(before) <= Members(after) &&
            forall f | f in after && f !in before ::
              f.mailAddress in lm.items[ForwardsAttribute] && (allow || f.mailAddress != email)
  {
    if ForwardsAttribute in lm.items {
      var ldapForwards := ForwardsFromSource(lm).value;
      DaoProperties.UpdateForwardsOnlyAdds(fault, encode, t, User(lm.mainIdentifier.value), ldapForwards, allow);
      var r := ApplyOutcome(fault, encode, allow, t, lm);
      forall f | f in Lookup(r.state.forwards, lm.mainIdentifier.value) && f !in Lookup(t.forwards, lm.mainIdentifier.value)
        ensures f.mailAddress in lm.items[ForwardsAttribute]
      {
        var i :| 0 <= i < |ldapForwards| && ldapForwards[i] == f;
        assert ForwardAddresses(ldapForwards)[i] == f.mailAddress;
      }
    }
  }

  /** UPDATE that answers true leaves the user with the forwards held before
      together with the listed ones that may be synchronised. */
  lemma ApplyUpdateAddsTheMissing(fault: Fault, encode: Encoder, allow: bool, t: ServerState, lm: Modifications)
    requires lm.mainIdentifier.Some? && lm.operation == UpdateObject
    ensures var r := ApplyOutcome(fault, encode, allow, t, lm);
            var email := lm.mainIdentifier.value;
            r.out == Value(true) ==>
              ForwardsAttribute in lm.items &&
              forall f :: f in Lookup(r.state.forwards, email) <==>
                f in Lookup(t.forwards, email) ||
                (f in ForwardsFromSource(lm).value && SynchronizeLocalCopyForwards(f, email, allow))
  {
    if ForwardsAttribute in lm.items {
      DaoProperties.UpdateForwardsAddsTheMissing(fault, encode, t, User(lm.mainIdentifier.value), ForwardsFromSource(lm).value, allow);
    }
  }

  /** UPDATE and DELETE for a user without forwards read NotFound, which is
      caught: the answer is false and nothing is written. */
  lemma ApplyWithoutForwards(fault: Fault, encode: Encoder, allow: bool, t: ServerState, lm: Modifications)
    requires lm.mainIdentifier.Some? && (lm.operation == UpdateObject || lm.operation == DeleteObject)
    requires Lookup(t.forwards, lm.mainIdentifier.value) == [] && SucceedsAt(fault, t, ListForwards(lm.mainIdentifier.value))
    ensures var r := ApplyOutcome(fault, encode, allow, t, lm);
            r.out == Value(false) && r.state.(log := t.log) == t
  {
  }

  /** DELETE that answers true leaves the user without forwards. */
  lemma ApplyDeleteEmpties(fault: Fault, encode: Encoder, allow: bool, t: ServerState, lm: Modifications)
    requires lm.mainIdentifier.Some? && lm.operation == DeleteObject
    ensures var r := ApplyOutcome(fault, encode, allow, t, lm);
            r.out == Value(true) ==> Lookup(r.state.forwards, lm.mainIdentifier.value) == []
  {
    DaoProperties.DeleteForwardsEmpties(fault, encode, t, User(lm.mainIdentifier.value));
  }

  /** What escapes `apply` is only a read's unexpected status. */
  lemma ApplyThrowsOnlyWebApplication(fault: Fault, encode: Encoder, allow: bool, t: ServerState, lm: Modifications)
    ensures var r := ApplyOutcome(fault, encode, allow, t, lm);
            r.out.Thrown? ==> r.out.error.WebApplication?
  {
    if lm.mainIdentifier.Some? {
      DaoProperties.ForwardOperationsThrowReadErrors(fault, encode, t, User(lm.mainIdentifier.value), ForwardsFromSource(lm).GetOr([]), allow);
    }
  }

  class JamesForwardDstService {
    const jamesDao: Dao.JamesDao
    /** The configuration flag that lets an update synchronise a forward to the user's own address. */
    const allowSynchronizeLocalCopyForwards: bool

    constructor (jamesDao: Dao.JamesDao, allowSynchronizeLocalCopyForwards: bool)
      ensures this.jamesDao == jamesDao && this.allowSynchronizeLocalCopyForwards == allowSynchronizeLocalCopyForwards
    {
      this.jamesDao := jamesDao;
      this.allowSynchronizeLocalCopyForwards := allowSynchronizeLocalCopyForwards;
    }

    method GetBean(pivotAttributes: seq<PivotAttribute>) returns (r: Outcome<Option<Bean>>)
      modifies jamesDao.server
      ensures Step(r, jamesDao.server.State()) == GetBeanOutcome(jamesDao.server.fault, old(jamesDao.server.State()), pivotAttributes)
    {
      var email := PivotEmail(pivotAttributes);
      if email.None? {
        return Value(None);
      }
      var forwards := jamesDao.GetForwards(email.value);
      var bean := if forwards.Value? then Value(Some(Bean(email.value, ToDataset(email.value, forwards.value)))) else Thrown(forwards.error);
      r := BeanOutcome(bean, true, false);
    }

    method GetListPivots(toDatasets: User -> Datasets) returns (r: Outcome<map<string, Datasets>>)
      modifies jamesDao.server
      ensures Step(r, jamesDao.server.State()) == ListPivotsOutcome(jamesDao.server.fault, old(jamesDao.server.State()), toDatasets)
    {
      var userList := jamesDao.GetUsersHaveForwards();
      if userList.Thrown? {
        return PivotsOutcome(userList, toDatasets);
      }
      var listPivots := CollectPivots(userList.value, toDatasets);
      r := Value(listPivots);
    }

    method Apply(lm: Modifications) returns (r: Outcome<bool>)
      modifies jamesDao.server
      ensures Step(r, jamesDao.server.State()) ==
              ApplyOutcome(jamesDao.server.fault, jamesDao.encode, allowSynchronizeLocalCopyForwards, old(jamesDao.server.State()), lm)
    {
      if lm.mainIdentifier.None? {
        return Value(false);
      }
      var user := User(lm.mainIdentifier.value);
      var written: Outcome<bool>;
      match lm.operation {
        case ChangeId =>
          written := Value(true);
        case CreateObject =>
          written := jamesDao.CreateForwards(user, ForwardsFromSource(lm).GetOr([]));
        case UpdateObject =>
          var ldapForwards := ForwardsFromSource(lm);
          if ldapForwards.Some? {
            written := jamesDao.UpdateForwards(user, ldapForwards.value, allowSynchronizeLocalCopyForwards);
          } else {
            written := Value(false);
          }
        case DeleteObject =>
          written := jamesDao.DeleteForwards(user);
      }
      r := CatchNotFoundAndProcessing(written);
    }
  }
}
