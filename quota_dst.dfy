/** JamesMailQuotaSizeDstService: synchronises a user's storage quota (the
    first value of the "mailQuotaSize" attribute, a decimal long) with the
    mail server. */
module QuotaDst {
  import opened Outcomes
  import opened Reconcile
  import opened Beans
  import opened Remote
  import opened Lsc
  import opened DaoModel
  import LongCodec
  import Dao

  const MailQuotaSizeAttribute: string := "mailQuotaSize"

  /** `quotaSizeFromSource`: the first value of "mailQuotaSize" read by
      Long.parseLong; none when the attribute is absent or has no value, and
      a NumberFormatException when that value is not a long. */
  function QuotaSizeFromSource(lm: Modifications): (r: Outcome<Option<QuotaSize>>)
    ensures r == Value(None) <==> FirstValue(lm, MailQuotaSizeAttribute).None?
    ensures r.Thrown? <==> FirstValue(lm, MailQuotaSizeAttribute).Some? && LongCodec.ParseLong(FirstValue(lm, MailQuotaSizeAttribute).value).None?
    ensures r.Thrown? ==> r.error == NumberFormat
    ensures r.Value? && r.value.Some? ==>
              LongCodec.InLongRange(r.value.value.size) &&
              LongCodec.ParseLong(lm.items[MailQuotaSizeAttribute][0]) == Some(r.value.value.size)
  {
    var text := FirstValue(lm, MailQuotaSizeAttribute);
    if text.None? then Value(None)
    else
      var size := LongCodec.ParseLong(text.value);
      if size.None? then Thrown(NumberFormat) else Value(Some(QuotaSize(size.value)))
  }

  /** `toDataset`: the email and the quota printed by String.valueOf. */
  function ToDataset(email: string, quotaSize: QuotaSize): (d: Datasets)
    ensures d.Keys == {"email", MailQuotaSizeAttribute}
    ensures d["email"] == Text(email) && d[MailQuotaSizeAttribute] == Text(LongCodec.LongToString(quotaSize.size))
  {
    map["email" := Text(email), MailQuotaSizeAttribute := Text(LongCodec.LongToString(quotaSize.size))]
  }

  /** A quota the connector reads back, written into a modification, is the
      quota it then writes: printing and parsing round-trip. */
  lemma DatasetRoundTrip(email: string, quotaSize: QuotaSize, lm: Modifications)
    requires LongCodec.InLongRange(quotaSize.size)
    requires lm.items == map[MailQuotaSizeAttribute := [ToDataset(email, quotaSize)[MailQuotaSizeAttribute].text]]
    ensures QuotaSizeFromSource(lm) == Value(Some(quotaSize))
  {
    LongCodec.ParseLongToString(quotaSize.size);
  }

  /** `getBean`: no bean without a pivot email, for an unknown user
      (NotFoundException) or for a user without a quota; otherwise the quota. */
  function GetBeanOutcome(fault: Fault, t: ServerState, pivotAttributes: seq<PivotAttribute>): (r: DaoStep<Option<Bean>>)
    ensures PivotEmail(pivotAttributes).None? ==> r == Step(Value(None), t)
    ensures PivotEmail(pivotAttributes).Some? ==>
              var email := PivotEmail(pivotAttributes).value;
              r.state == t.(log := t.log + [GetQuota(email)]) &&
              (AnsweredNaturally(fault, t, GetQuota(email)) ==>
                 r.out == if email in t.users && email in t.quotas then Value(Some(Bean(email, ToDataset(email, t.quotas[email]))))
                          else Value(None))
    ensures r.out.Thrown? ==> r.out.error == LscServiceCommunication || r.out.error == LscService
  {
    var email := PivotEmail(pivotAttributes);
    if email.None? then Step(Value(None), t)
    else
      var read := GetQuotaSize(fault, t, email.value);
      assert read.out.Thrown? ==> ReadError(read.out.error);
      var bean :=
        if read.out.Thrown? then Thrown(read.out.error)
        else if read.out.value.None? then Value(None)
        else Value(Some(Bean(email.value, ToDataset(email.value, read.out.value.value))));
      Step(BeanOutcome(bean, true, false), read.state)
  }

  /** The `switch` of `apply`, with the NumberFormatException catches of
      CREATE and UPDATE, before the outer catch clauses. */
  function Dispatch(fault: Fault, t: ServerState, lm: Modifications, user: User): DaoStep<bool> {
    match lm.operation
    case ChangeId => Step(Value(false), t)
    case CreateObject =>
      var size := QuotaSizeFromSource(lm);
      if size.Thrown? then Step(Value(false), t)
      else if size.value.Some? then SetQuotaSize(fault, t, user, size.value.value)
      else Step(Value(false), t)
    case UpdateObject =>
      var size := QuotaSizeFromSource(lm);
      if size.Thrown? then Step(Value(false), t)
      else if size.value.Some? then SetQuotaSize(fault, t, user, size.value.value)
      else DeleteQuotaSize(fault, t, user)
    case DeleteObject => DeleteQuotaSize(fault, t, user)
  }

  /** `apply` */
  function ApplyOutcome(fault: Fault, t: ServerState, lm: Modifications): (r: DaoStep<bool>)
    ensures lm.mainIdentifier.None? ==> r == Step(Value(false), t)
    ensures lm.mainIdentifier.Some? && lm.operation == ChangeId ==> r == Step(Value(false), t)
    ensures lm.mainIdentifier.Some? && lm.operation == CreateObject && FirstValue(lm, MailQuotaSizeAttribute).None? ==> r == Step(Value(false), t)
    ensures lm.mainIdentifier.Some? && (lm.operation == CreateObject || lm.operation == UpdateObject) && QuotaSizeFromSource(lm).Thrown? ==>
              r == Step(Value(false), t)
  {
    if lm.mainIdentifier.None? then Step(Value(false), t)
    else
      var w := Dispatch(fault, t, lm, User(lm.mainIdentifier.value));
      Step(CatchNotFoundAndProcessing(w.out), w.state)
  }

  /** `apply` never throws: every write throws at most a ProcessingException,
      and a malformed quota is caught where it is parsed. */
  lemma ApplyNeverThrows(fault: Fault, t: ServerState, lm: Modifications)
    ensures ApplyOutcome(fault, t, lm).out.Value?
  {
  }

  /** Whatever the operation, `apply` changes no other user's quota and
      nothing but quotas. */
  lemma ApplyTouchesOnlyTheUser(fault: Fault, t: ServerState, lm: Modifications)
    requires lm.mainIdentifier.Some?
    ensures OnlyQuotaOf(t, ApplyOutcome(fault, t, lm).state, lm.mainIdentifier.value)
  {
  }

  /** CREATE or UPDATE with a well-formed quota sets exactly that quota: it
      answers true exactly when the server accepts the request, and then the
      user's quota is the parsed value. */
  lemma ApplySetsTheQuota(fault: Fault, t: ServerState, lm: Modifications, n: int)
    requires lm.mainIdentifier.Some? && (lm.operation == CreateObject || lm.operation == UpdateObject)
    requires FirstValue(lm, MailQuotaSizeAttribute).Some? && LongCodec.ParseLong(FirstValue(lm, MailQuotaSizeAttribute).value) == Some(n)
    ensures var r := ApplyOutcome(fault, t, lm);
            var email := lm.mainIdentifier.value;
            (r.out == Value(true) <==> SucceedsAt(fault, t, PutQuota(email, QuotaSize(n)))) &&
            (r.out == Value(true) ==> r.state.quotas == t.quotas[email := QuotaSize(n)])
  {
  }

  /** UPDATE without a value, and DELETE, remove the quota: when they answer
      true the user has none. */
  lemma ApplyRemovesTheQuota(fault: Fault, t: ServerState, lm: Modifications)
    requires lm.mainIdentifier.Some?
    requires lm.operation == DeleteObject || (lm.operation == UpdateObject && FirstValue(lm, MailQuotaSizeAttribute).None?)
    ensures var r := ApplyOutcome(fault, t, lm);
            var email := lm.mainIdentifier.value;
            (r.out == Value(true) <==> SucceedsAt(fault, t, DeleteQuota(email))) &&
            (r.out == Value(true) ==> r.state.quotas == t.quotas - {email})
  {
  }

  /** The server keeps quotas only for the users it knows: under a faultless
      server, `apply` for an unknown user answers false and changes no quota. */
  lemma ApplyForUnknownUserFails(fault: Fault, t: ServerState, lm: Modifications)
    requires Faultless(fault)
    requires lm.mainIdentifier.Some? && lm.mainIdentifier.value !in t.users
    ensures var r := ApplyOutcome(fault, t, lm);
            r.out == Value(false) && r.state.quotas == t.quotas
  {
    var email := lm.mainIdentifier.value;
    var size := QuotaSizeFromSource(lm);
    if size.Value? && size.value.Some? {
      FaultlessRepliesNaturally(fault, t, PutQuota(email, size.value.value));
    }
    FaultlessRepliesNaturally(fault, t, DeleteQuota(email));
  }

  class JamesMailQuotaSizeDstService {
    const jamesDao: Dao.JamesDao

    constructor (jamesDao: Dao.JamesDao)
      ensures this.jamesDao == jamesDao
    {
      this.jamesDao := jamesDao;
    }

    method GetBean(pivotAttributes: seq<PivotAttribute>) returns (r: Outcome<Option<Bean>>)
      modifies jamesDao.server
      ensures Step(r, jamesDao.server.State()) == GetBeanOutcome(jamesDao.server.fault, old(jamesDao.server.State()), pivotAttributes)
    {
      var email := PivotEmail(pivotAttributes);
      if email.None? {
        return Value(None);
      }
      var maybeQuotaSize := jamesDao.GetQuotaSize(email.value);
      var bean :=
        if maybeQuotaSize.Thrown? then Thrown(maybeQuotaSize.error)
        else if maybeQuotaSize.value.None? then Value(None)
        else Value(Some(Bean(email.value, ToDataset(email.value, maybeQuotaSize.value.value))));
      r := BeanOutcome(bean, true, false);
    }

    method GetListPivots(toDatasets: User -> Datasets) returns (r: Outcome<map<string, Datasets>>)
      modifies jamesDao.server
      ensures Step(r, jamesDao.server.State()) == UserPivotsOutcome(jamesDao.server.fault, old(jamesDao.server.State()), toDatasets)
    {
      var userList := jamesDao.GetUserList();
      if userList.Thrown? {
        return PivotsOutcome(userList, toDatasets);
      }
      var listPivots := CollectPivots(userList.value, toDatasets);
      r := Value(listPivots);
    }

    method Apply(lm: Modifications) returns (r: Outcome<bool>)
      modifies jamesDao.server
      ensures Step(r, jamesDao.server.State()) == ApplyOutcome(jamesDao.server.fault, old(jamesDao.server.State()), lm)
    {
      if lm.mainIdentifier.None? {
        return Value(false);
      }
      var user := User(lm.mainIdentifier.value);
      var written: Outcome<bool>;
      match lm.operation {
        case ChangeId =>
          written := Value(false);
        case CreateObject =>
          var quotaSizeToCreate := QuotaSizeFromSource(lm);
          if quotaSizeToCreate.Thrown? {
            written := Value(false);
          } else if quotaSizeToCreate.value.Some? {
            written := jamesDao.SetQuotaSize(user, quotaSizeToCreate.value.value);
          } else {
            written := Value(false);
          }
        case UpdateObject =>
          var quotaSizeToUpdate := QuotaSizeFromSource(lm);
          if quotaSizeToUpdate.Thrown? {
            written := Value(false);
          } else if quotaSizeToUpdate.value.Some? {
            written := jamesDao.SetQuotaSize(user, quotaSizeToUpdate.value.value);
          } else {
            written := jamesDao.DeleteQuotaSize(user);
          }
        case DeleteObject =>
          written := jamesDao.DeleteQuotaSize(user);
      }
      r := CatchNotFoundAndProcessing(written);
    }
  }
}
