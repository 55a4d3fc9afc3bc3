/** TMailContactDstService: synchronises domain contacts (an address and
    optional first name and surname) with the mail server, for the domains of
    the configured allow-list only. */
module ContactDst {
  import opened Outcomes
  import opened Reconcile
  import opened Beans
  import opened ContactBean
  import opened Remote
  import opened Lsc
  import opened DaoModel
  import opened SyncContactConfig
  import Dao

  const EmailKey: string := "email"
  const FirstnameKey: string := "firstname"
  const SurnameKey: string := "surname"

  /** `extractContact`: the main identifier with the first values of
      "firstname" and "surname", a name absent when its attribute is absent or empty. */
  function ExtractContact(lm: Modifications): (c: Contact)
    requires lm.mainIdentifier.Some?
    ensures c.emailAddress == lm.mainIdentifier.value
    ensures c.firstname == FirstValue(lm, FirstnameKey) && c.surname == FirstValue(lm, SurnameKey)
  {
    Contact(lm.mainIdentifier.value, FirstValue(lm, FirstnameKey), FirstValue(lm, SurnameKey))
  }

  /** `toDataset`: the address, and each name that is present. */
  function ToDataset(contact: Contact): (d: Datasets)
    ensures EmailKey in d && d[EmailKey] == Text(contact.emailAddress)
    ensures FirstnameKey in d <==> contact.firstname.Some?
    ensures SurnameKey in d <==> contact.surname.Some?
    ensures contact.firstname.Some? ==> d[FirstnameKey] == Text(contact.firstname.value)
    ensures contact.surname.Some? ==> d[SurnameKey] == Text(contact.surname.value)
    ensures d.Keys <= {EmailKey, FirstnameKey, SurnameKey}
  {
    var withEmail := map[EmailKey := Text(contact.emailAddress)];
    var withFirstname := if contact.firstname.Some? then withEmail[FirstnameKey := Text(contact.firstname.value)] else withEmail;
    if contact.surname.Some? then withFirstname[SurnameKey := Text(contact.surname.value)] else withFirstname
  }

  /** A contact read back as a bean, carried by a modification for its
      address, is extracted as the same contact. */
  lemma DatasetRoundTrip(contact: Contact, lm: Modifications)
    requires lm.mainIdentifier == Some(contact.emailAddress)
    requires lm.items == ItemsOf(ToDataset(contact))
    ensures ExtractContact(lm) == contact
  {
    var d := ToDataset(contact);
    if contact.firstname.Some? {
      assert lm.items[FirstnameKey] == [contact.firstname.value];
    }
    if contact.surname.Some? {
      assert lm.items[SurnameKey] == [contact.surname.value];
    }
  }

  /** `getBean`: no bean without a pivot email or for a domain that is not
      synchronised (and then no request); otherwise the stored contact, no
      bean when the server has none (NotFoundException). An address without
      '@' throws StringIndexOutOfBoundsException, which is not caught. */
  function GetBeanOutcome(fault: Fault, domains: Option<seq<string>>, t: ServerState, pivotAttributes: seq<PivotAttribute>): (r: DaoStep<Option<Bean>>)
    ensures PivotEmail(pivotAttributes).None? ==> r == Step(Value(None), t)
    ensures PivotEmail(pivotAttributes).Some? && !IsDomainSynchronized(domains, PivotEmail(pivotAttributes).value) ==> r == Step(Value(None), t)
    ensures PivotEmail(pivotAttributes).Some? && IsDomainSynchronized(domains, PivotEmail(pivotAttributes).value) ==>
              var email := PivotEmail(pivotAttributes).value;
              ('@' !in email ==> r == Step(Thrown(StringIndexOutOfBounds), t)) &&
              ('@' in email ==> OnlyContactOf(t, r.state, email) && r.state.contacts == t.contacts) &&
              ('@' in email && AnsweredNaturally(fault, t, Remote.GetContact(ExtractDomainFromEmail(email), ExtractUsernameFromEmail(email).value)) ==>
                 r.out == if FindContact(t.contacts, email).Some? then Value(Some(Bean(email, ToDataset(FindContact(t.contacts, email).value))))
                          else Value(None))
    ensures r.out.Value? && r.out.value.Some? ==> FindContact(t.contacts, r.out.value.value.mainIdentifier).Some?
  {
    var email := PivotEmail(pivotAttributes);
    if email.None? || !IsDomainSynchronized(domains, email.value) then Step(Value(None), t)
    else
      var read := DaoModel.GetContact(fault, t, email.value);
      var bean := if read.out.Value? then Value(Some(Bean(read.out.value.emailAddress, ToDataset(read.out.value)))) else Thrown(read.out.error);
      Step(BeanOutcome(bean, true, true), read.state)
  }

  /** `getListPivots`: one pivot per stored contact, whatever its domain. */
  function ListPivotsOutcome(fault: Fault, t: ServerState, toDatasets: User -> Datasets): (r: DaoStep<map<string, Datasets>>)
    ensures r.state == t.(log := t.log + [ListContacts])
    ensures SucceedsAt(fault, t, ListContacts) <==> r.out.Value?
    ensures r.out.Value? ==> forall e :: e in r.out.value <==> FindContact(t.contacts, e).Some?
  {
    var listing := GetUsersListViaDomainContacts(fault, t);
    var emails := ContactEmails(t.contacts);
    PivotKeysOfNames(emails, toDatasets);
    ContactKeysFound(t.contacts);
    assert listing.out.Value? ==> listing.out.value == DaoModel.UsersNamed(emails);
    Step(PivotsOutcome(listing.out, toDatasets), listing.state)
  }

  /** An address is listed among the contacts exactly when a contact is stored under it. */
  lemma ContactEmailsFound(contacts: seq<Contact>, e: string)
    ensures e in ContactEmails(contacts) <==> FindContact(contacts, e).Some?
  {
    if e in ContactEmails(contacts) {
      var i :| 0 <= i < |ContactEmails(contacts)| && ContactEmails(contacts)[i] == e;
      assert contacts[i] in contacts;
    }
  }

  /** The set of listed addresses is the set of addresses with a stored contact. */
  lemma ContactKeysFound(contacts: seq<Contact>)
    ensures forall e :: e in Sequences.Members(ContactEmails(contacts)) <==> FindContact(contacts, e).Some?
  {
    forall e ensures e in Sequences.Members(ContactEmails(contacts)) <==> FindContact(contacts, e).Some? {
      ContactEmailsFound(contacts, e);
    }
  }

  /** The `switch` of `apply`, before its catch clause. */
  function Dispatch(fault: Fault, t: ServerState, lm: Modifications): DaoStep<bool>
    requires lm.mainIdentifier.Some?
  {
    match lm.operation
    case CreateObject => AddDomainContact(fault, t, ExtractContact(lm))
    case UpdateObject =>
      var updateContact := ExtractContact(lm);
      if updateContact.firstname.Some? || updateContact.surname.Some? then UpdateDomainContact(fault, t, updateContact)
      else Step(Value(false), t)
    case DeleteObject => RemoveDomainContact(fault, t, lm.mainIdentifier.value)
    case ChangeId => Step(Value(false), t)
  }

  /** `apply`, for the allow-list `domains`. */
  function ApplyOutcome(fault: Fault, domains: Option<seq<string>>, t: ServerState, lm: Modifications): (r: DaoStep<bool>)
    ensures lm.mainIdentifier.None? ==> r == Step(Value(false), t)
    ensures lm.mainIdentifier.Some? && !IsDomainSynchronized(domains, lm.mainIdentifier.value) ==> r == Step(Value(false), t)
    ensures lm.mainIdentifier.Some? && lm.operation == ChangeId ==> r == Step(Value(false), t)
    ensures lm.mainIdentifier.Some? && lm.operation == UpdateObject && FirstValue(lm, FirstnameKey).None? && FirstValue(lm, SurnameKey).None? ==>
              r == Step(Value(false), t)
  {
    if lm.mainIdentifier.None? || !IsDomainSynchronized(domains, lm.mainIdentifier.value) then Step(Value(false), t)
    else
      var w := Dispatch(fault, t, lm);
      Step(CatchProcessing(w.out), w.state)
  }

  /** Whatever the operation, `apply` changes no other contact and nothing but contacts. */
  lemma ApplyTouchesOnlyTheContact(fault: Fault, domains: Option<seq<string>>, t: ServerState, lm: Modifications)
    requires lm.mainIdentifier.Some?
    ensures OnlyContactOf(t, ApplyOutcome(fault, domains, t, lm).state, lm.mainIdentifier.value)
  {
  }

  /** CREATE that answers true stores the extracted contact, replacing any
      contact stored under that address. */
  lemma ApplyCreateStores(fault: Fault, domains: Option<seq<string>>, t: ServerState, lm: Modifications)
    requires lm.mainIdentifier.Some? && lm.operation == CreateObject
    ensures var r := ApplyOutcome(fault, domains, t, lm);
            r.out == Value(true) ==>
              IsDomainSynchronized(domains, lm.mainIdentifier.value) &&
              FindContact(r.state.contacts, lm.mainIdentifier.value) == Some(ExtractContact(lm))
  {
  }

  /** UPDATE that answers true renamed a contact that was stored: it now holds
      exactly the extracted names (an absent name is cleared). */
  lemma ApplyUpdateRenames(fault: Fault, domains: Option<seq<string>>, t: ServerState, lm: Modifications)
    requires lm.mainIdentifier.Some? && lm.operation == UpdateObject
    ensures var r := ApplyOutcome(fault, domains, t, lm);
            r.out == Value(true) ==>
              (FirstValue(lm, FirstnameKey).Some? || FirstValue(lm, SurnameKey).Some?) &&
              FindContact(t.contacts, lm.mainIdentifier.value).Some? &&
              FindContact(r.state.contacts, lm.mainIdentifier.value) == Some(ExtractContact(lm))
  {
  }

  /** DELETE that answers true leaves no contact under the address. */
  lemma ApplyDeleteRemoves(fault: Fault, domains: Option<seq<string>>, t: ServerState, lm: Modifications)
    requires lm.mainIdentifier.Some? && lm.operation == DeleteObject
    ensures var r := ApplyOutcome(fault, domains, t, lm);
            r.out == Value(true) ==> FindContact(r.state.contacts, lm.mainIdentifier.value) == None
  {
  }

  /** What escapes `apply` is only the StringIndexOutOfBoundsException of an
      UPDATE or DELETE for an address without '@', which then sends nothing. */
  lemma ApplyThrowsOnlyForAddressWithoutAt(fault: Fault, domains: Option<seq<string>>, t: ServerState, lm: Modifications)
    ensures var r := ApplyOutcome(fault, domains, t, lm);
            r.out.Thrown? ==>
              r == Step(Thrown(StringIndexOutOfBounds), t) &&
              lm.mainIdentifier.Some? && '@' !in lm.mainIdentifier.value &&
              (lm.operation == UpdateObject || lm.operation == DeleteObject)
  {
  }

  class TMailContactDstService {
    const jamesDao: Dao.JamesDao
    /** `SyncContactConfig.DOMAIN_LIST_TO_SYNCHRONIZE` */
    const domainListToSynchronize: Option<seq<string>>

    /** The allow-list is read from the value of the environment variable. */
    constructor (jamesDao: Dao.JamesDao, environmentValue: Option<string>)
      ensures this.jamesDao == jamesDao
      ensures domainListToSynchronize == DomainListToSynchronize(environmentValue)
    {
      this.jamesDao := jamesDao;
      domainListToSynchronize := DomainListToSynchronize(environmentValue);
    }

    method Apply(lm: Modifications) returns (r: Outcome<bool>)
      modifies jamesDao.server
      ensures Step(r, jamesDao.server.State()) ==
              ApplyOutcome(jamesDao.server.fault, domainListToSynchronize, old(jamesDao.server.State()), lm)
    {
      if lm.mainIdentifier.None? {
        return Value(false);
      }
      var email := lm.mainIdentifier.value;
      if !IsDomainSynchronized(domainListToSynchronize, email) {
        return Value(false);
      }
      var written: Outcome<bool>;
      match lm.operation {
        case CreateObject =>
          written := jamesDao.AddDomainContact(ExtractContact(lm));
        case UpdateObject =>
          var updateContact := ExtractContact(lm);
          if updateContact.firstname.Some? || updateContact.surname.Some? {
            written := jamesDao.UpdateDomainContact(ExtractContact(lm));
          } else {
            written := Value(false);
          }
        case DeleteObject =>
          written := jamesDao.RemoveDomainContact(email);
        case ChangeId =>
          written := Value(false);
      }
      r := CatchProcessing(written);
    }

    method GetBean(pivotAttributes: seq<PivotAttribute>) returns (r: Outcome<Option<Bean>>)
      modifies jamesDao.server
      ensures Step(r, jamesDao.server.State()) ==
              GetBeanOutcome(jamesDao.server.fault, domainListToSynchronize, old(jamesDao.server.State()), pivotAttributes)
    {
      var email := PivotEmail(pivotAttributes);
      if email.None? || !IsDomainSynchronized(domainListToSynchronize, email.value) {
        return Value(None);
      }
      var contact := jamesDao.GetContact(email.value);
      var bean := if contact.Value? then Value(Some(Bean(contact.value.emailAddress, ToDataset(contact.value)))) else Thrown(contact.error);
      r := BeanOutcome(bean, true, true);
    }

    method GetListPivots(toDatasets: User -> Datasets) returns (r: Outcome<map<string, Datasets>>)
      modifies jamesDao.server
      ensures Step(r, jamesDao.server.State()) == ListPivotsOutcome(jamesDao.server.fault, old(jamesDao.server.State()), toDatasets)
    {
      var userList := jamesDao.GetUsersListViaDomainContacts();
      if userList.Thrown? {
        return PivotsOutcome(userList, toDatasets);
      }
      var listPivots := CollectPivots(userList.value, toDatasets);
      r := Value(listPivots);
    }
  }
}
