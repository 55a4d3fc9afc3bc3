/** The parts of the LSC framework the destination services see: the
    modification a synchronisation task asks them to apply, the pivot
    attributes a bean is looked up by, the bean and its datasets, and the two
    shapes of error handling every service repeats (the catch clauses of
    `getBean`/`getListPivots` and those of `apply`). */
module Lsc {
  import opened Outcomes
  import opened Sequences
  import opened Beans
  import DaoModel
  import Remote
  import Reconcile

  /** LscModifications.getOperation */
  datatype Operation = CreateObject | UpdateObject | DeleteObject | ChangeId

  /** LscModifications: the main identifier (null as None), the operation and
      the values of each modified attribute (`getModificationsItemsByHash`). */
  datatype Modifications = Modifications(mainIdentifier: Option<string>, operation: Operation, items: map<string, seq<string>>) {

    /** `Optional.ofNullable(getModificationsItemsByHash().get(attribute))` */
    function Item(attribute: string): Option<seq<string>> {
      if attribute in items then Some(items[attribute]) else None
    }
  }

  /** `Optional.ofNullable(items.get(attribute)).filter(l -> !l.isEmpty()).map(l -> l.get(0))`:
      the first value of an attribute, absent when the attribute is absent or has no value. */
  function FirstValue(lm: Modifications, attribute: string): (r: Option<string>)
    ensures r.Some? <==> attribute in lm.items && lm.items[attribute] != []
    ensures r.Some? ==> r.value == lm.items[attribute][0]
  {
    var values := lm.Item(attribute);
    if values.Some? && values.value != [] then Some(values.value[0]) else None
  }

  /** A value put in an LscDatasets: one string or a list of strings. */
  datatype DatasetValue = Text(text: string) | Texts(texts: seq<string>)

  /** LscDatasets */
  type Datasets = map<string, DatasetValue>

  /** The modification items a synchronisation would carry for these
      datasets: a single value as a one-element list. */
  function ItemsOf(d: Datasets): (items: map<string, seq<string>>)
    ensures items.Keys == d.Keys
    ensures forall k | k in d && d[k].Text? :: items[k] == [d[k].text]
  {
    map k | k in d :: match d[k] case Text(s) => [s] case Texts(ss) => ss
  }

  /** IBean: a main identifier and its datasets. */
  datatype Bean = Bean(mainIdentifier: string, datasets: Datasets)

  /** One pivot attribute: its name and `getStringValueAttribute` of it (null as None). */
  datatype PivotAttribute = PivotAttribute(name: string, stringValue: Option<string>)

  /** The email every `getBean` looks up: the string value of the first pivot
      attribute; None when there is no attribute or its value is null. */
  function PivotEmail(pivotAttributes: seq<PivotAttribute>): (email: Option<string>)
    ensures email.Some? ==> |pivotAttributes| >= 1 && pivotAttributes[0].stringValue == email
    ensures email.None? ==> |pivotAttributes| < 1 || pivotAttributes[0].stringValue.None?
  {
    if |pivotAttributes| < 1 then None else pivotAttributes[0].stringValue
  }

  /** NotFoundException is a WebApplicationException. */
  predicate IsWebApplication(e: Exception) {
    e.NotFound? || e.WebApplication?
  }

  /** The catch clauses of a `getBean`: a ProcessingException becomes an
      LscServiceCommunicationException; a NotFoundException becomes no bean
      where the service catches it; any other WebApplicationException, and an
      IOException where the service catches it, becomes an LscServiceException;
      anything else propagates. */
  function BeanOutcome(read: Outcome<Option<Bean>>, notFoundIsNull: bool, catchesIo: bool): (r: Outcome<Option<Bean>>)
    ensures read.Value? ==> r == read
    ensures r == Value(None) <==> read == Value(None) || (notFoundIsNull && read == Thrown(NotFound))
    ensures read == Thrown(Processing) ==> r == Thrown(LscServiceCommunication)
    ensures r.Thrown? && r.error != LscServiceCommunication && r.error != LscService ==> r == read
  {
    match read
    case Value(_) => read
    case Thrown(e) =>
      if e == Processing then Thrown(LscServiceCommunication)
      else if e == NotFound && notFoundIsNull then Value(None)
      else if IsWebApplication(e) || (e == Io && catchesIo) then Thrown(LscService)
      else read
  }

  /** The pivot map of `getListPivots`: each listed user's email mapped to its
      datasets, filled in list order (a later entry replaces an earlier one). */
  function PivotMap(users: seq<User>, toDatasets: User -> Datasets): map<string, Datasets>
    decreases |users|
  {
    if users == [] then map[]
    else
      var last := users[|users| - 1];
      PivotMap(users[..|users| - 1], toDatasets)[last.email := toDatasets(last)]
  }

  /** The pivot map's keys are exactly the listed users' emails, and each key
      holds the datasets of the user of that email. */
  lemma {:induction false} PivotMapEntries(users: seq<User>, toDatasets: User -> Datasets)
    ensures PivotMap(users, toDatasets).Keys == set u | u in users :: u.email
    ensures forall k | k in PivotMap(users, toDatasets) :: PivotMap(users, toDatasets)[k] == toDatasets(User(k))
    decreases |users|
  {
    if users != [] {
      var init := users[..|users| - 1];
      PivotMapEntries(init, toDatasets);
      assert users == init + [users[|users| - 1]];
      assert (set u | u in users :: u.email) == (set u | u in init :: u.email) + {users[|users| - 1].email};
    }
  }

  /** Listing users by name: the pivot keys are exactly the listed names. */
  lemma PivotKeysOfNames(names: seq<string>, toDatasets: User -> Datasets)
    ensures PivotMap(DaoModel.UsersNamed(names), toDatasets).Keys == Members(names)
  {
    var users := DaoModel.UsersNamed(names);
    PivotMapEntries(users, toDatasets);
    forall k | k in Members(names)
      ensures k in set u | u in users :: u.email
    {
      var i :| 0 <= i < |names| && names[i] == k;
      assert users[i] == User(k);
    }
  }

  /** The `for` loop of `getListPivots`. */
  method CollectPivots(users: seq<User>, toDatasets: User -> Datasets) returns (listPivots: map<string, Datasets>)
    ensures listPivots == PivotMap(users, toDatasets)
  {
    listPivots := map[];
    for i := 0 to |users|
      invariant listPivots == PivotMap(users[..i], toDatasets)
    {
      assert users[..i + 1][..i] == users[..i];
      listPivots := listPivots[users[i].email := toDatasets(users[i])];
    }
    assert users[..|users|] == users;
  }

  /** The catch clauses of `getListPivots`: a ProcessingException becomes an
      LscServiceCommunicationException and any WebApplicationException an
      LscServiceException. */
  function PivotsOutcome(listing: Outcome<seq<User>>, toDatasets: User -> Datasets): (r: Outcome<map<string, Datasets>>)
    ensures r.Value? <==> listing.Value?
    ensures listing.Value? ==> r.value == PivotMap(listing.value, toDatasets)
    ensures listing == Thrown(Processing) ==> r == Thrown(LscServiceCommunication)
    ensures listing.Thrown? && IsWebApplication(listing.error) ==> r == Thrown(LscService)
  {
    match listing
    case Value(users) => Value(PivotMap(users, toDatasets))
    case Thrown(e) =>
      if e == Processing then Thrown(LscServiceCommunication)
      else if IsWebApplication(e) then Thrown(LscService)
      else Thrown(e)
  }

  /** `getListPivots` of the services whose pivots are all the users of the
      server (users, identities, quotas and address mappings): one pivot per user. */
  function UserPivotsOutcome(fault: Remote.Fault, t: Remote.ServerState, toDatasets: User -> Datasets): (r: DaoModel.DaoStep<map<string, Datasets>>)
    ensures r.state == t.(log := t.log + [Remote.ListUsers])
    ensures Remote.SucceedsAt(fault, t, Remote.ListUsers) <==> r.out.Value?
    ensures r.out.Value? ==> r.out.value.Keys == Members(t.users)
  {
    var listing := DaoModel.GetUserList(fault, t);
    PivotKeysOfNames(t.users, toDatasets);
    assert listing.out.Value? ==> listing.out.value == DaoModel.UsersNamed(t.users);
    Reconcile.Step(PivotsOutcome(listing.out, toDatasets), listing.state)
  }

  /** `catch (NotFoundException | ProcessingException e) { return false; }` */
  function CatchNotFoundAndProcessing(out: Outcome<bool>): (r: Outcome<bool>)
    ensures r == Value(true) <==> out == Value(true)
    ensures r.Thrown? <==> out.Thrown? && out.error != NotFound && out.error != Processing
    ensures r.Thrown? ==> r == out
  {
    if out == Thrown(NotFound) || out == Thrown(Processing) then Value(false) else out
  }

  /** `catch (ProcessingException e) { return false; }` */
  function CatchProcessing(out: Outcome<bool>): (r: Outcome<bool>)
    ensures r == Value(true) <==> out == Value(true)
    ensures r.Thrown? <==> out.Thrown? && out.error != Processing
    ensures r.Thrown? ==> r == out
  {
    if out == Thrown(Processing) then Value(false) else out
  }
}
