/** JamesAliasDstService: synchronises a user's aliases (the "sources"
    attribute) with the mail server. */
module AliasDst {
  import opened Outcomes
  import opened Sequences
  import opened Reconcile
  import opened Beans
  import opened Remote
  import opened Lsc
  import opened DaoModel
  import DaoProperties
  import Dao

  const SourcesAttribute: string := "sources"

  function AliasSources(aliases: seq<Alias>): seq<string> {
    MapSeq((a: Alias) => a.source, aliases)
  }

  /** `aliasesFromSource`: one alias per value of "sources", in order; absent
      when the attribute is. */
  function AliasesFromSource(lm: Modifications): (r: Option<seq<Alias>>)
    ensures r.Some? <==> SourcesAttribute in lm.items
    ensures r.Some? ==> AliasSources(r.value) == lm.items[SourcesAttribute]
  {
    var values := lm.Item(SourcesAttribute);
    if values.Some? then Some(MapSeq((s: string) => Alias(s), values.value)) else None
  }

  /** `toDataset`: the email and the aliases' sources, in order. */
  function ToDataset(email: string, aliases: seq<Alias>): (d: Datasets)
    ensures d.Keys == {"email", SourcesAttribute}
    ensures d["email"] == Text(email) && d[SourcesAttribute] == Texts(AliasSources(aliases))
  {
    map["email" := Text(email), SourcesAttribute := Texts(AliasSources(aliases))]
  }

  /** The "sources" a bean is built from are the values the modification carried. */
  lemma DatasetCarriesSources(email: string, lm: Modifications)
    requires SourcesAttribute in lm.items
    ensures ToDataset(email, AliasesFromSource(lm).value)[SourcesAttribute] == Texts(lm.items[SourcesAttribute])
  {
  }

  /** `getBean`: no bean without a pivot email; otherwise the user's aliases,
      no bean when there are none (NotFoundException). */
  function GetBeanOutcome(fault: Fault, t: ServerState, pivotAttributes: seq<PivotAttribute>): (r: DaoStep<Option<Bean>>)
    ensures PivotEmail(pivotAttributes).None? ==> r == Step(Value(None), t)
    ensures PivotEmail(pivotAttributes).Some? ==>
              var email := PivotEmail(pivotAttributes).value;
              var held := Lookup(t.aliases, email);
              r.state == t.(log := t.log + [ListAliases(email)]) &&
              (SucceedsAt(fault, t, ListAliases(email)) ==>
                 r.out == if held == [] then Value(None) else Value(Some(Bean(email, ToDataset(email, held))))) &&
              (!SucceedsAt(fault, t, ListAliases(email)) ==> r.out.Thrown? || r.out == Value(None))
  {
    var email := PivotEmail(pivotAttributes);
    if email.None? then Step(Value(None), t)
    else
      var read := GetAliases(fault, t, email.value);
      var bean := if read.out.Value? then Value(Some(Bean(email.value, ToDataset(email.value, read.out.value)))) else Thrown(read.out.error);
      Step(BeanOutcome(bean, true, false), read.state)
  }

  /** `getListPivots`: one pivot per user that has aliases. */
  function ListPivotsOutcome(fault: Fault, t: ServerState, toDatasets: User -> Datasets): (r: DaoStep<map<string, Datasets>>)
    ensures r.state == t.(log := t.log + [ListAliasUsers])
    ensures SucceedsAt(fault, t, ListAliasUsers) <==> r.out.Value?
    ensures r.out.Value? ==> forall u :: u in r.out.value <==> u in t.aliasOwners && Lookup(t.aliases, u) != []
  {
    var listing := GetUsersListViaAlias(fault, t);
    PivotKeysOfNames(Holders(t.aliasOwners, t.aliases), toDatasets);
    assert listing.out.Value? ==> listing.out.value == DaoModel.UsersNamed(Holders(t.aliasOwners, t.aliases));
    Step(PivotsOutcome(listing.out, toDatasets), listing.state)
  }

  /** The `switch` of `apply`, before its catch clauses. */
  function Dispatch(fault: Fault, encode: Encoder, t: ServerState, lm: Modifications, user: User): DaoStep<bool> {
    match lm.operation
    case ChangeId => Step(Value(true), t)
    case CreateObject => CreateAliases(fault, encode, t, user, AliasesFromSource(lm).GetOr([]))
    case UpdateObject =>
      var sources := AliasesFromSource(lm);
      if sources.Some? then UpdateAliases(fault, encode, t, user, sources.value) else Step(Value(false), t)
    case DeleteObject => DeleteAliases(fault, encode, t, user)
  }

  /** `apply` */
  function ApplyOutcome(fault: Fault, encode: Encoder, t: ServerState, lm: Modifications): (r: DaoStep<bool>)
    ensures lm.mainIdentifier.None? ==> r == Step(Value(false), t)
    ensures lm.mainIdentifier.Some? && lm.operation == ChangeId ==> r == Step(Value(true), t)
    ensures lm.mainIdentifier.Some? && lm.operation == CreateObject && SourcesAttribute !in lm.items ==> r == Step(Value(true), t)
    ensures lm.mainIdentifier.Some? && lm.operation == UpdateObject && SourcesAttribute !in lm.items ==> r == Step(Value(false), t)
  {
    if lm.mainIdentifier.None? then Step(Value(false), t)
    else
      var w := Dispatch(fault, encode, t, lm, User(lm.mainIdentifier.value));
      Step(CatchNotFoundAndProcessing(w.out), w.state)
  }

  /** Whatever the operation, `apply` changes no other user's aliases and
      nothing but aliases. */
  lemma ApplyTouchesOnlyTheUser(fault: Fault, encode: Encoder, t: ServerState, lm: Modifications)
    requires lm.mainIdentifier.Some?
    ensures OnlyAliasesOf(t, ApplyOutcome(fault, encode, t, lm).state, lm.mainIdentifier.value)
  {
    var user := User(lm.mainIdentifier.value);
    match lm.operation
    case ChangeId =>
    case CreateObject =>
      DaoProperties.AliasFoldsTouchOnlyTheUser(fault, encode, t, t, user, AliasesFromSource(lm).GetOr([]));
    case UpdateObject =>
      if SourcesAttribute in lm.items {
        DaoProperties.UpdateAliasesTouchesOnlyTheUser(fault, encode, t, user, AliasesFromSource(lm).value);
      }
    case DeleteObject =>
      DaoProperties.DeleteAliasesEmpties(fault, encode, t, user);
  }

  /** CREATE writes each listed alias, in order, with no read first; when it
      answers true the user now also holds all of them. */
  lemma ApplyCreateAdds(fault: Fault, encode: Encoder, t: ServerState, lm: Modifications)
    requires lm.mainIdentifier.Some? && lm.operation == CreateObject
    ensures var r := ApplyOutcome(fault, encode, t, lm);
            var email := lm.mainIdentifier.value;
            var aliases := AliasesFromSource(lm).GetOr([]);
            r.out == Value(true) ==>
              Members(Lookup(r.state.aliases, email)) == Members(Lookup(t.aliases, email)) + Members(aliases) &&
              r.state.log == t.log + MapSeq(DaoProperties.AliasCreationRequest(email), aliases)
  {
    DaoProperties.CreateAliasesAdds(fault, encode, t, User(lm.mainIdentifier.value), AliasesFromSource(lm).GetOr([]));
  }

  /** UPDATE that answers true leaves the user with exactly the listed aliases
      (none at all when the list is empty), so a second UPDATE would write nothing. */
  lemma ApplyUpdateConverges(fault: Fault, encode: Encoder, t: ServerState, lm: Modifications)
    requires lm.mainIdentifier.Some? && lm.operation == UpdateObject
    ensures var r := ApplyOutcome(fault, encode, t, lm);
            var held := Lookup(r.state.aliases, lm.mainIdentifier.value);
            r.out == Value(true) ==>
              SourcesAttribute in lm.items &&
              Members(held) == Members(AliasesFromSource(lm).value) &&
              ComputeToAdd(AliasesFromSource(lm).value, held) == [] &&
              ComputeToRemove(AliasesFromSource(lm).value, held) == [] &&
              (lm.items[SourcesAttribute] == [] ==> held == [])
  {
    if SourcesAttribute in lm.items {
      var user := User(lm.mainIdentifier.value);
      var aliases := AliasesFromSource(lm).value;
      DaoProperties.UpdateAliasesConverges(fault, encode, t, user, aliases);
      var r := ApplyOutcome(fault, encode, t, lm);
      if r.out == Value(true) && lm.items[SourcesAttribute] == [] {
        var held := Lookup(r.state.aliases, user.email);
        DaoProperties.NoMembers(held);
        DaoProperties.NoMembers(aliases);
      }
    }
  }

  /** UPDATE and DELETE for a user without aliases read NotFound, which is
      caught: the answer is false and nothing is written. */
  lemma ApplyWithoutAliases(fault: Fault, encode: Encoder, t: ServerState, lm: Modifications)
    requires lm.mainIdentifier.Some? && (lm.operation == UpdateObject || lm.operation == DeleteObject)
    requires Lookup(t.aliases, lm.mainIdentifier.value) == [] && SucceedsAt(fault, t, ListAliases(lm.mainIdentifier.value))
    ensures var r := ApplyOutcome(fault, encode, t, lm);
            r.out == Value(false) && r.state.(log := t.log) == t
  {
  }

  /** DELETE that answers true leaves the user without aliases. */
  lemma ApplyDeleteEmpties(fault: Fault, encode: Encoder, t: ServerState, lm: Modifications)
    requires lm.mainIdentifier.Some? && lm.operation == DeleteObject
    ensures var r := ApplyOutcome(fault, encode, t, lm);
            r.out == Value(true) ==> Lookup(r.state.aliases, lm.mainIdentifier.value) == []
  {
    DaoProperties.DeleteAliasesEmpties(fault, encode, t, User(lm.mainIdentifier.value));
  }

  /** Writes only ever throw a ProcessingException, which `apply` catches with
      NotFoundException: what escapes is a read's unexpected status. */
  lemma ApplyThrowsOnlyWebApplication(fault: Fault, encode: Encoder, t: ServerState, lm: Modifications)
    ensures var r := ApplyOutcome(fault, encode, t, lm);
            r.out.Thrown? ==> r.out.error.WebApplication?
  {
    if lm.mainIdentifier.Some? {
      DaoProperties.AliasOperationsThrowReadErrors(fault, encode, t, User(lm.mainIdentifier.value), AliasesFromSource(lm).GetOr([]));
    }
  }

  /** With a faultless server and an encoder that accepts every address,
      UPDATE answers true exactly when the user already had an alias. */
  lemma ApplyUpdateFaultless(fault: Fault, encode: Encoder, t: ServerState, lm: Modifications)
    requires Faultless(fault) && EncodesEverything(encode)
    requires lm.mainIdentifier.Some? && lm.operation == UpdateObject && SourcesAttribute in lm.items
    ensures ApplyOutcome(fault, encode, t, lm).out == Value(Lookup(t.aliases, lm.mainIdentifier.value) != [])
  {
    DaoProperties.UpdateAliasesFaultless(fault, encode, t, User(lm.mainIdentifier.value), AliasesFromSource(lm).value);
  }

  class JamesAliasDstService {
    const jamesDao: Dao.JamesDao

    constructor (jamesDao: Dao.JamesDao)
      ensures this.jamesDao == jamesDao
    {
      this.jamesDao := jamesDao;
    }

    method GetBean(pivotAttributes: seq<PivotAttribute>) returns (r: Outcome<Option<Bean>>)
      modifies jamesDao.server
      ensures Step(r, jamesDao.server.State()) == GetBeanOutcome(jamesDao.server.fault, old(jamesDao.server.State()), pivotAttributes)
    {
      var email := PivotEmail(pivotAttributes);
      if email.None? {
        return Value(None);
      }
      var aliases := jamesDao.GetAliases(email.value);
      var bean := if aliases.Value? then Value(Some(Bean(email.value, ToDataset(email.value, aliases.value)))) else Thrown(aliases.error);
      r := BeanOutcome(bean, true, false);
    }

    method GetListPivots(toDatasets: User -> Datasets) returns (r: Outcome<map<string, Datasets>>)
      modifies jamesDao.server
      ensures Step(r, jamesDao.server.State()) == ListPivotsOutcome(jamesDao.server.fault, old(jamesDao.server.State()), toDatasets)
    {
      var userList := jamesDao.GetUsersListViaAlias();
      if userList.Thrown? {
        return PivotsOutcome(userList, toDatasets);
      }
      var listPivots := CollectPivots(userList.value, toDatasets);
      r := Value(listPivots);
    }

    method Apply(lm: Modifications) returns (r: Outcome<bool>)
      modifies jamesDao.server
      ensures Step(r, jamesDao.server.State()) == ApplyOutcome(jamesDao.server.fault, jamesDao.encode, old(jamesDao.server.State()), lm)
    {
      if lm.mainIdentifier.None? {
        return Value(false);
      }
      var user := User(lm.mainIdentifier.value);
      var written: Outcome<bool>;
      match lm.operation {
        case ChangeId =>
          written := Value(true);
        case CreateObject =>
          written := jamesDao.CreateAliases(user, AliasesFromSource(lm).GetOr([]));
        case UpdateObject =>
          var aliasesInSource := AliasesFromSource(lm);
          if aliasesInSource.Some? {
            written := jamesDao.UpdateAliases(user, aliasesInSource.value);
          } else {
            written := Value(false);
          }
        case DeleteObject =>
          written := jamesDao.DeleteAliases(user);
      }
      r := CatchNotFoundAndProcessing(written);
    }
  }
}
