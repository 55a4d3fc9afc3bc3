/** JamesUserDstService: creates and removes the users of the mail server. */
module UserDst {
  import opened Outcomes
  import opened Sequences
  import opened Reconcile
  import opened Beans
  import opened Remote
  import opened Lsc
  import opened DaoModel
  import Dao

  /** `getBean`: no bean without a pivot email or for a user the server does
      not know; otherwise a bean of the user's own datasets. A status other
      than 200 and 404 is a JamesClientException, which escapes. */
  function GetBeanOutcome(fault: Fault, t: ServerState, pivotAttributes: seq<PivotAttribute>, toDatasets: User -> Datasets): (r: DaoStep<Option<Bean>>)
    ensures PivotEmail(pivotAttributes).None? ==> r == Step(Value(None), t)
    ensures PivotEmail(pivotAttributes).Some? ==>
              var email := PivotEmail(pivotAttributes).value;
              r.state == t.(log := t.log + [HeadUser(email)]) &&
              (AnsweredNaturally(fault, t, HeadUser(email)) ==>
                 r.out == if email in t.users then Value(Some(Bean(email, toDatasets(User(email))))) else Value(None))
    ensures r.out.Value? && r.out.value.Some? ==> r.out.value.value.mainIdentifier in t.users
    ensures r.out.Thrown? ==> r.out.error == LscServiceCommunication || r.out.error.JamesClient?
  {
    var email := PivotEmail(pivotAttributes);
    if email.None? then Step(Value(None), t)
    else
      var known := UserExists(fault, t, email.value);
      var bean :=
        if known.out.Thrown? then Thrown(known.out.error)
        else if known.out.value then Value(Some(Bean(email.value, toDatasets(User(email.value)))))
        else Value(None);
      Step(BeanOutcome(bean, true, false), known.state)
  }

  /** `apply`, with `password` the generated password of a new user. */
  function ApplyOutcome(fault: Fault, t: ServerState, lm: Modifications, password: string): (r: DaoStep<bool>)
    ensures lm.mainIdentifier.None? ==> r == Step(Value(false), t)
    ensures lm.mainIdentifier.Some? && (lm.operation == UpdateObject || lm.operation == ChangeId) ==> r == Step(Value(true), t)
  {
    if lm.mainIdentifier.None? then Step(Value(false), t)
    else
      var user := User(lm.mainIdentifier.value);
      var w :=
        match lm.operation
        case CreateObject => AddUser(fault, t, user, password)
        case DeleteObject => RemoveUser(fault, t, user)
        case _ => Step(Value(true), t);
      Step(CatchProcessing(w.out), w.state)
  }

  /** `apply` never throws and changes nothing but whether its user exists. */
  lemma ApplyTouchesOnlyTheUser(fault: Fault, t: ServerState, lm: Modifications, password: string)
    requires lm.mainIdentifier.Some?
    ensures var r := ApplyOutcome(fault, t, lm, password);
            r.out.Value? && OnlyUserOf(t, r.state, lm.mainIdentifier.value)
  {
  }

  /** CREATE answers true exactly when the server accepts the new user, who
      then exists; otherwise the users are unchanged. */
  lemma ApplyCreateAdds(fault: Fault, t: ServerState, lm: Modifications, password: string)
    requires lm.mainIdentifier.Some? && lm.operation == CreateObject
    ensures var r := ApplyOutcome(fault, t, lm, password);
            var email := lm.mainIdentifier.value;
            (r.out == Value(true) <==> SucceedsAt(fault, t, PutUser(email, password))) &&
            (r.out == Value(true) ==> email in r.state.users) &&
            (r.out != Value(true) ==> r.state.users == t.users)
  {
  }

  /** On a faultless server, CREATE of a user that already exists, or of a
      name without a domain part, answers false and leaves the users unchanged. */
  lemma ApplyCreateExistingUserFails(fault: Fault, t: ServerState, lm: Modifications, password: string)
    requires Faultless(fault)
    requires lm.mainIdentifier.Some? && lm.operation == CreateObject
    requires lm.mainIdentifier.value in t.users || '@' !in lm.mainIdentifier.value
    ensures var r := ApplyOutcome(fault, t, lm, password);
            r.out == Value(false) && r.state.users == t.users
  {
    FaultlessRepliesNaturally(fault, t, PutUser(lm.mainIdentifier.value, password));
  }

  /** DELETE answers true exactly when the server accepts the removal, after
      which the user no longer exists. */
  lemma ApplyDeleteRemoves(fault: Fault, t: ServerState, lm: Modifications, password: string)
    requires lm.mainIdentifier.Some? && lm.operation == DeleteObject
    ensures var r := ApplyOutcome(fault, t, lm, password);
            var email := lm.mainIdentifier.value;
            (r.out == Value(true) <==> SucceedsAt(fault, t, DeleteUser(email))) &&
            (r.out == Value(true) ==> email !in r.state.users) &&
            (r.out != Value(true) ==> r.state.users == t.users)
  {
  }

  /** A user created by `apply` is then found by `getBean`, and one deleted
      by it is not, when the server answers naturally. */
  lemma CreatedUserIsFound(fault: Fault, t: ServerState, lm: Modifications, password: string, pivotAttributes: seq<PivotAttribute>, toDatasets: User -> Datasets)
    requires lm.mainIdentifier.Some? && (lm.operation == CreateObject || lm.operation == DeleteObject)
    requires PivotEmail(pivotAttributes) == lm.mainIdentifier
    ensures var r := ApplyOutcome(fault, t, lm, password);
            var email := lm.mainIdentifier.value;
            r.out == Value(true) && AnsweredNaturally(fault, r.state, HeadUser(email)) ==>
              GetBeanOutcome(fault, r.state, pivotAttributes, toDatasets).out ==
                if lm.operation == CreateObject then Value(Some(Bean(email, toDatasets(User(email))))) else Value(None)
  {
  }

  class JamesUserDstService {
    const jamesDao: Dao.JamesDao

    constructor (jamesDao: Dao.JamesDao)
      ensures this.jamesDao == jamesDao
    {
      this.jamesDao := jamesDao;
    }

    method Apply(lm: Modifications, password: string) returns (r: Outcome<bool>)
      modifies jamesDao.server
      ensures Step(r, jamesDao.server.State()) == ApplyOutcome(jamesDao.server.fault, old(jamesDao.server.State()), lm, password)
    {
      if lm.mainIdentifier.None? {
        return Value(false);
      }
      var user := User(lm.mainIdentifier.value);
      var written: Outcome<bool>;
      match lm.operation {
        case CreateObject =>
          written := jamesDao.AddUser(user, password);
        case DeleteObject =>
          written := jamesDao.RemoveUser(user);
        case _ =>
          written := Value(true);
      }
      r := CatchProcessing(written);
    }

    method GetBean(pivotAttributes: seq<PivotAttribute>, toDatasets: User -> Datasets) returns (r: Outcome<Option<Bean>>)
      modifies jamesDao.server
      ensures Step(r, jamesDao.server.State()) == GetBeanOutcome(jamesDao.server.fault, old(jamesDao.server.State()), pivotAttributes, toDatasets)
    {
      var email := PivotEmail(pivotAttributes);
      if email.None? {
        return Value(None);
      }
      var known := jamesDao.UserExists(email.value);
      var bean :=
        if known.Thrown? then Thrown(known.error)
        else if known.value then Value(Some(Bean(email.value, toDatasets(User(email.value)))))
        else Value(None);
      r := BeanOutcome(bean, true, false);
    }

    method GetListPivots(toDatasets: User -> Datasets) returns (r: Outcome<map<string, Datasets>>)
      modifies jamesDao.server
      ensures Step(r, jamesDao.server.State()) == UserPivotsOutcome(jamesDao.server.fault, old(jamesDao.server.State()), toDatasets)
    {
      var userList := jamesDao.GetUserList();
      if userList.Thrown? {
        return PivotsOutcome(userList, toDatasets);
      }
      var listPivots := CollectPivots(userList.value, toDatasets);
      r := Value(listPivots);
    }
  }
}
