/** JamesIdentityDstService: provisions a user's default identity, whose
    display name is built from the "firstname" and "surname" attributes. The
    identity is only ever created: update, delete and change of id are
    deliberate no-ops. */
module IdentityDst {
  import opened Outcomes
  import opened Sequences
  import opened Reconcile
  import opened Beans
  import opened IdentityBean
  import opened Remote
  import opened Lsc
  import opened DaoModel
  import ContactDst
  import Dao

  /** `extractIdentityFromLDAPBean`: the main identifier, the display name of
      its first name and surname (the address when both are absent), and the
      default sort order. */
  function ExtractIdentity(lm: Modifications): (identity: Identity)
    requires lm.mainIdentifier.Some?
    ensures identity.email == lm.mainIdentifier.value && identity.sortOrder == DefaultIdentitySortOrder
    ensures identity.name == ToDisplayName(FirstValue(lm, ContactDst.FirstnameKey), FirstValue(lm, ContactDst.SurnameKey), lm.mainIdentifier.value)
  {
    var email := lm.mainIdentifier.value;
    Identity(email, ToDisplayName(FirstValue(lm, ContactDst.FirstnameKey), FirstValue(lm, ContactDst.SurnameKey), email), DefaultIdentitySortOrder)
  }

  /** Without names the display name is the address; with both it is
      "first surname", whatever other values the attributes carry. */
  lemma ExtractedDisplayName(lm: Modifications)
    requires lm.mainIdentifier.Some?
    ensures ContactDst.FirstnameKey !in lm.items && ContactDst.SurnameKey !in lm.items ==>
              ExtractIdentity(lm).name == lm.mainIdentifier.value
    ensures ContactDst.FirstnameKey in lm.items && lm.items[ContactDst.FirstnameKey] != [] &&
            ContactDst.SurnameKey in lm.items && lm.items[ContactDst.SurnameKey] != [] ==>
              ExtractIdentity(lm).name == lm.items[ContactDst.FirstnameKey][0] + " " + lm.items[ContactDst.SurnameKey][0]
  {
  }

  /** `toDataset`: only the email. */
  function ToDataset(email: string): (d: Datasets)
    ensures d.Keys == {"email"} && d["email"] == Text(email)
  {
    map["email" := Text(email)]
  }

  /** `getBean`: no bean without a pivot email, nor when the user has no
      default identity (NotFoundException); otherwise a bean holding only the email. */
  function GetBeanOutcome(fault: Fault, t: ServerState, pivotAttributes: seq<PivotAttribute>): (r: DaoStep<Option<Bean>>)
    ensures PivotEmail(pivotAttributes).None? ==> r == Step(Value(None), t)
    ensures PivotEmail(pivotAttributes).Some? ==>
              var email := PivotEmail(pivotAttributes).value;
              r.state == t.(log := t.log + [ListIdentities(email)]) &&
              (SucceedsAt(fault, t, ListIdentities(email)) ==>
                 r.out == if Lookup(t.identities, email) == [] then Value(None) else Value(Some(Bean(email, ToDataset(email)))))
    ensures r.out.Thrown? ==> r.out.error == LscServiceCommunication || r.out.error == LscService
  {
    var email := PivotEmail(pivotAttributes);
    if email.None? then Step(Value(None), t)
    else
      var read := GetDefaultIdentity(fault, t, email.value);
      assert read.out.Thrown? ==> ReadError(read.out.error);
      var bean := if read.out.Value? then Value(Some(Bean(email.value, ToDataset(email.value)))) else Thrown(read.out.error);
      Step(BeanOutcome(bean, true, true), read.state)
  }

  /** `apply` */
  function ApplyOutcome(fault: Fault, t: ServerState, lm: Modifications): (r: DaoStep<bool>)
    ensures lm.mainIdentifier.None? ==> r == Step(Value(false), t)
    ensures lm.mainIdentifier.Some? && lm.operation != CreateObject ==> r == Step(Value(true), t)
  {
    if lm.mainIdentifier.None? then Step(Value(false), t)
    else
      var w :=
        match lm.operation
        case CreateObject => CreateDefaultIdentity(fault, t, ExtractIdentity(lm))
        case _ => Step(Value(true), t);
      Step(CatchNotFoundAndProcessing(w.out), w.state)
  }

  /** CREATE sends one identity creation and never throws; when it answers
      true the extracted identity is the user's newest identity, and nothing
      but identities changed. */
  lemma ApplyCreateAdds(fault: Fault, t: ServerState, lm: Modifications)
    requires lm.mainIdentifier.Some? && lm.operation == CreateObject
    ensures var r := ApplyOutcome(fault, t, lm);
            var email := lm.mainIdentifier.value;
            r.out.Value? &&
            OnlyIdentitiesOf(t, r.state, email) &&
            (r.out == Value(true) <==> SucceedsAt(fault, t, PostIdentity(ExtractIdentity(lm)))) &&
            (r.out == Value(true) ==> Lookup(r.state.identities, email) == Lookup(t.identities, email) + [ExtractIdentity(lm)]) &&
            (r.out != Value(true) ==> r.state.identities == t.identities)
  {
  }

  /** A user without identities, once CREATE answers true, has the extracted
      identity as default identity. */
  lemma ApplyCreateMakesDefault(fault: Fault, t: ServerState, lm: Modifications)
    requires lm.mainIdentifier.Some? && lm.operation == CreateObject
    requires Lookup(t.identities, lm.mainIdentifier.value) == []
    ensures var r := ApplyOutcome(fault, t, lm);
            r.out == Value(true) ==>
              var s := r.state;
              SucceedsAt(fault, s, ListIdentities(lm.mainIdentifier.value)) ==>
                GetDefaultIdentity(fault, s, lm.mainIdentifier.value).out == Value(ExtractIdentity(lm))
  {
  }

  /** The default identity is provisioned even before the user exists: on a
      faultless server CREATE answers true and appends the extracted identity. */
  lemma ApplyCreatePreProvisions(fault: Fault, t: ServerState, lm: Modifications)
    requires Faultless(fault)
    requires lm.mainIdentifier.Some? && lm.operation == CreateObject && lm.mainIdentifier.value !in t.users
    ensures var r := ApplyOutcome(fault, t, lm);
            var email := lm.mainIdentifier.value;
            r.out == Value(true) &&
            Lookup(r.state.identities, email) == Lookup(t.identities, email) + [ExtractIdentity(lm)]
  {
    FaultlessRepliesNaturally(fault, t, PostIdentity(ExtractIdentity(lm)));
  }

  class JamesIdentityDstService {
    const jamesDao: Dao.JamesDao

    constructor (jamesDao: Dao.JamesDao)
      ensures this.jamesDao == jamesDao
    {
      this.jamesDao := jamesDao;
    }

    method GetBean(pivotAttributes: seq<PivotAttribute>) returns (r: Outcome<Option<Bean>>)
      modifies jamesDao.server
      ensures Step(r, jamesDao.server.State()) == GetBeanOutcome(jamesDao.server.fault, old(jamesDao.server.State()), pivotAttributes)
    {
      var email := PivotEmail(pivotAttributes);
      if email.None? {
        return Value(None);
      }
      var defaultIdentity := jamesDao.GetDefaultIdentity(email.value);
      var bean := if defaultIdentity.Value? then Value(Some(Bean(email.value, ToDataset(email.value)))) else Thrown(defaultIdentity.error);
      r := BeanOutcome(bean, true, true);
    }

    method GetListPivots(toDatasets: User -> Datasets) returns (r: Outcome<map<string, Datasets>>)
      modifies jamesDao.server
      ensures Step(r, jamesDao.server.State()) == UserPivotsOutcome(jamesDao.server.fault, old(jamesDao.server.State()), toDatasets)
    {
      var userList := jamesDao.GetUserList();
      if userList.Thrown? {
        return PivotsOutcome(userList, toDatasets);
      }
      var listPivots := CollectPivots(userList.value, toDatasets);
      r := Value(listPivots);
    }

    method Apply(lm: Modifications) returns (r: Outcome<bool>)
      modifies jamesDao.server
      ensures Step(r, jamesDao.server.State()) == ApplyOutcome(jamesDao.server.fault, old(jamesDao.server.State()), lm)
    {
      if lm.mainIdentifier.None? {
        return Value(false);
      }
      var written: Outcome<bool>;
      match lm.operation {
        case CreateObject =>
          written := jamesDao.CreateDefaultIdentity(ExtractIdentity(lm));
        case _ =>
          written := Value(true);
      }
      r := CatchNotFoundAndProcessing(written);
    }
  }
}
