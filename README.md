# tmail-lsc destination services, in Dafny

This project models the core of tmail-lsc. tmail-lsc is a plugin for the LSC
(LDAP Synchronization Connector) framework. It provisions a James / TMail mail
server from an LDAP directory through the server's webadmin REST API.

An LSC task calls three operations on a *destination service*:

- `getListPivots` lists what the server holds;
- `getBean` reads one entry;
- `apply` carries out one modification: create, update, delete or change of id.

Seven services sync one kind of data each:

- users;
- aliases;
- forwards;
- "Address" mappings;
- storage quotas;
- default identities;
- domain contacts (limited to an allow-list of domains).

All of them go through one HTTP client, `JamesDao`.

The model keeps the structure of the Java code. Data look like this:

- Each value class becomes a datatype: user, alias, forward, address mapping, quota, contact and identity, in `beans.dfy`, `contact.dfy` and `identity.dfy`.
- The LSC framework's modifications, pivot attributes, beans and datasets are in `lsc.dfy`. So are the catch clauses that every service repeats.
- Exceptions are values of `Outcomes.Outcome` (`Value` or `Thrown`). A catch clause is a function over that value, following the Java catch order.

The server and the DAO:

- The mail server is a simulated server in `remote.dfy`. `Remote.MailServer` is a class with one field per store and a request log.
  - A *fault plan* decides which requests fail, and how: no reply, or any HTTP status.
  - A request that does not fail gets its natural reply: 404 for a user the server does not know on a user-existence or quota request, and for a contact it does not hold on a contact read or rename; 409 to the creation of a user that already exists and 400 to the creation of a name without a domain part; otherwise 200 for a read and 204 for a write. A successful write changes the stores.
  - `Remote.Exchange` is the same step as a pure function over `ServerState`.
- `DaoModel` gives each `JamesDao` operation as a function. It takes the fault plan and the server state, and returns the outcome with the state left behind. Typed reads follow Jersey: no reply is a ProcessingException, 404 a NotFoundException, any other non-2xx status a WebApplicationException. Raw writes are judged by `checkResponse`.
- `Dao.JamesDao` is a class whose methods send the requests to the server object. Each method is proved to reach exactly the outcome and state of its `DaoModel` function.
- The batch writes are `stream().reduce(true, (result, x) -> result && write(x), …)`. The write sits inside the accumulator, so once a write fails no later write is sent. In the model they are `for` loops proved against the generic fold `Reconcile.Fold`.

Each service is a module:

- pure functions `GetBeanOutcome`, `ListPivotsOutcome` and `ApplyOutcome` (the services whose pivots are all the server's users share `Lsc.UserPivotsOutcome`);
- a class with the `GetBean`, `GetListPivots` and `Apply` methods, proved against those functions;
- lemmas stating what the service promises.

The lemmas cover:

- which stores an `apply` may touch;
- what a successful create, update or delete leaves behind;
- that an update converges, so a second update would write nothing;
- the order of a reconciliation's requests;
- which exceptions escape;
- the round trip bean -> modification -> value.

## Model


| member | source | states |
|---|---|---|
| Lsc.FirstValue | src/main/java/org/lsc/plugins/connectors/james/JamesIdentityDstService.java:182-192 | the first value of an attribute; absent exactly when the attribute is absent or has no value |
| Lsc.PivotEmail | src/main/java/org/lsc/plugins/connectors/james/JamesUserDstService.java:131-138 | the looked-up email is the string value of the first pivot attribute; none when there is no attribute or a null value |
| Lsc.BeanOutcome | src/main/java/org/lsc/plugins/connectors/james/JamesAliasDstService.java:125-144 | getBean's catch clauses: ProcessingException becomes LscServiceCommunicationException; NotFoundException becomes no bean where caught; other WebApplicationException becomes LscServiceException; a value passes unchanged |
| Lsc.PivotMapEntries | src/main/java/org/lsc/plugins/connectors/james/JamesUserDstService.java:170-176 | the pivot map's keys are exactly the listed users' emails, each holding that user's datasets |
| Lsc.PivotKeysOfNames | src/main/java/org/lsc/plugins/connectors/james/JamesDao.java:559-569 | listing users by name gives exactly those names as pivot keys |
| Lsc.CollectPivots | src/main/java/org/lsc/plugins/connectors/james/JamesUserDstService.java:172-176 | the `for` loop filling the pivot map gives the pivot map of the listed users |
| Lsc.PivotsOutcome | src/main/java/org/lsc/plugins/connectors/james/JamesUserDstService.java:168-186 | getListPivots' catch clauses: a value exactly when the listing succeeded; ProcessingException and WebApplicationException are mapped to the two LSC exceptions |
| Lsc.CatchNotFoundAndProcessing | src/main/java/org/lsc/plugins/connectors/james/JamesAliasDstService.java:222-228 | apply answers true exactly when the write did; NotFound and Processing become false; anything else propagates unchanged |
| Lsc.CatchProcessing | src/main/java/org/lsc/plugins/connectors/james/JamesUserDstService.java:116-120 | apply answers true exactly when the write did; only Processing becomes false |
| Lsc.ItemsOf | src/main/java/org/lsc/plugins/connectors/james/TMailContactDstService.java:191-197 | the modification items for a bean's datasets have the same keys, a single value as a one-element list |
| Sequences.Missing | src/main/java/org/lsc/plugins/connectors/james/JamesDao.java:504-508 | the `filter(!contains)` stream: exactly the elements of `from` not in `present`, multiplicities kept, in order |
| Sequences.MissingEmpty | src/main/java/org/lsc/plugins/connectors/james/JamesDao.java:504-515 | the filter keeps nothing exactly when every element is contained |
| IdentityBean.PresentNames | src/main/java/org/lsc/plugins/connectors/james/beans/Identity.java:15-26 | the present optional names, in order |
| IdentityBean.ToDisplayName | src/main/java/org/lsc/plugins/connectors/james/beans/Identity.java:15-26 | a present first name begins the display name and a present surname ends it; with both they are separated by one space; with neither it is the fallback address |
| IdentityBean.DisplayNameJoinsPresentNames | src/main/java/org/lsc/plugins/connectors/james/beans/Identity.java:15-26 | toDisplayName is the present names joined by single spaces, or the fallback address when there is none |
| IdentityBean.DisplayNameCases | src/main/java/org/lsc/plugins/connectors/james/beans/Identity.java:15-26 | the four cases of toDisplayName |
| IdentityBean.DisplayNameDeterminesSurname | src/main/java/org/lsc/plugins/connectors/james/beans/Identity.java:15-18 | with the first name fixed, the display name determines the surname |
| IdentityBean.IdentityEquality | src/main/java/org/lsc/plugins/connectors/james/beans/Identity.java:57-66 | identities are equal exactly when name, email and sort order are |
| ContactBean.IndexOf | src/main/java/org/lsc/plugins/connectors/james/beans/Contact.java:17-23 | indexOf: -1 exactly when the character is absent, else its first position |
| ContactBean.ExtractDomainFromEmail | src/main/java/org/lsc/plugins/connectors/james/beans/Contact.java:17-19 | the domain is a suffix of the address, preceded by an '@' when the address has one, and the whole address otherwise |
| ContactBean.ExtractUsernameFromEmail | src/main/java/org/lsc/plugins/connectors/james/beans/Contact.java:21-23 | throws StringIndexOutOfBoundsException exactly when the address has no '@'; otherwise a prefix of the address without '@' that is followed by its first '@' |
| ContactBean.Contact.GetDomain | src/main/java/org/lsc/plugins/connectors/james/beans/Contact.java:47-49 | a suffix of the contact's address, the whole address when it has no '@' |
| ContactBean.Contact.GetUsernameFromEmail | src/main/java/org/lsc/plugins/connectors/james/beans/Contact.java:52-54 | throws exactly when the address has no '@'; otherwise it, '@' and the domain rebuild the address |
| ContactBean.EmailSplitsAtFirstAt | src/main/java/org/lsc/plugins/connectors/james/beans/Contact.java:17-23 | the user-name and domain extractors give u and d exactly when the address is u@d and u holds no '@' |
| ContactBean.UsernameAndDomainRebuildEmail | src/main/java/org/lsc/plugins/connectors/james/beans/Contact.java:17-23 | an address with '@' is rebuilt from its user name, '@' and its domain |
| ContactBean.EmailWithoutAt | src/main/java/org/lsc/plugins/connectors/james/beans/Contact.java:17-23 | without '@' the domain is the whole address and the user name throws StringIndexOutOfBoundsException |
| ContactBean.Contact.GetContactNames | src/main/java/org/lsc/plugins/connectors/james/beans/Contact.java:57-59 | the names sent with the address rebuild the contact |
| ContactBean.ContactAddressParts | src/main/java/org/lsc/plugins/connectors/james/beans/Contact.java:47-54 | a contact's getUsernameFromEmail and getDomain rebuild its address |
| ContactBean.ContactEquality | src/main/java/org/lsc/plugins/connectors/james/beans/Contact.java:62-71 | contacts are equal exactly when address, first name and surname are |
| SyncContactConfig.SplitAll | src/main/java/org/lsc/plugins/connectors/james/config/SyncContactConfig.java:8-10 | the pieces between commas: at least one, one exactly when there is no comma, none holding a comma |
| SyncContactConfig.SplitAllRejoins | src/main/java/org/lsc/plugins/connectors/james/config/SyncContactConfig.java:8-10 | joining the pieces with commas gives back the value |
| SyncContactConfig.SplitAllLastPiece | src/main/java/org/lsc/plugins/connectors/james/config/SyncContactConfig.java:8-10 | the last piece is empty exactly when the value is empty or ends with a comma |
| SyncContactConfig.DropTrailingEmpty | src/main/java/org/lsc/plugins/connectors/james/config/SyncContactConfig.java:10 | String.split drops exactly the trailing empty pieces |
| SyncContactConfig.Split | src/main/java/org/lsc/plugins/connectors/james/config/SyncContactConfig.java:10 | String.split(","): no piece holds a comma; with a comma the pieces are a prefix of all pieces and do not end with an empty one |
| SyncContactConfig.DomainListToSynchronize | src/main/java/org/lsc/plugins/connectors/james/config/SyncContactConfig.java:9-10 | there is no list exactly when the variable is unset |
| SyncContactConfig.SplitPiecesFollowValue | src/main/java/org/lsc/plugins/connectors/james/config/SyncContactConfig.java:10 | the listed domains hold no comma and are, in order, the value's pieces up to its trailing empty ones |
| SyncContactConfig.SplitRejoins | src/main/java/org/lsc/plugins/connectors/james/config/SyncContactConfig.java:10 | a value not ending in a comma is rebuilt by joining its list |
| SyncContactConfig.UnsetVariableAllowsAll | src/main/java/org/lsc/plugins/connectors/james/config/SyncContactConfig.java:9-10 | an unset variable synchronises every domain |
| SyncContactConfig.IsDomainSynchronized | src/main/java/org/lsc/plugins/connectors/james/TMailContactDstService.java:67 | an empty list synchronises nothing; an address without '@' is synchronised exactly when it is itself listed |
| SyncContactConfig.SynchronizedByDomain | src/main/java/org/lsc/plugins/connectors/james/TMailContactDstService.java:116 | an address user@domain is synchronised exactly when there is no list or its domain is listed |
| LongCodec.ParseLong | src/main/java/org/lsc/plugins/connectors/james/JamesMailQuotaSizeDstService.java:182-189 | Long.parseLong: a parsed value is a long and the text starts with a digit or sign |
| LongCodec.NaturalToDigits | src/main/java/org/lsc/plugins/connectors/james/JamesMailQuotaSizeDstService.java:175-180 | the decimal digits denote the number, with no leading zero |
| LongCodec.LongToString | src/main/java/org/lsc/plugins/connectors/james/JamesMailQuotaSizeDstService.java:178 | String.valueOf(long): a '-' exactly before the digits of a negative value, and the digits denote the magnitude with no leading zero |
| LongCodec.ParseLongToString | src/main/java/org/lsc/plugins/connectors/james/JamesMailQuotaSizeDstService.java:175-189 | every long printed by String.valueOf parses back to itself |
| LongCodec.LongToStringSign | src/main/java/org/lsc/plugins/connectors/james/JamesMailQuotaSizeDstService.java:175-180 | the printed form starts with '-' exactly for a negative value |
| LongCodec.MinusOne | src/main/java/org/lsc/plugins/connectors/james/JamesMailQuotaSizeDstService.java:175-189 | the unlimited quota -1 prints and parses as "-1" |
| LongCodec.Malformed | src/main/java/org/lsc/plugins/connectors/james/JamesMailQuotaSizeDstService.java:182-189 | "", "-" and "12a" are refused |
| Reconcile.FoldConcat | src/main/java/org/lsc/plugins/connectors/james/JamesDao.java:421-426 | reducing a concatenation runs the second part only if the first succeeded |
| Reconcile.FoldExtend | src/main/java/org/lsc/plugins/connectors/james/JamesDao.java:421-426 | after a successful prefix the reduction makes exactly one more write |
| Reconcile.FoldOfNothing | src/main/java/org/lsc/plugins/connectors/james/JamesDao.java:421-426 | reducing no items writes nothing and answers true |
| Reconcile.FoldStopsAtFirstFailure | src/main/java/org/lsc/plugins/connectors/james/JamesDao.java:421-426 | short-circuit: the first write that fails ends the reduction with its own outcome |
| Reconcile.FoldAllSucceeded | src/main/java/org/lsc/plugins/connectors/james/JamesDao.java:421-426 | the reduction answers true exactly when every write, in turn, answered true |
| Reconcile.FoldAdds | src/main/java/org/lsc/plugins/connectors/james/JamesDao.java:421-426 | when each write adds its item, a successful reduction adds them all |
| Reconcile.FoldDrops | src/main/java/org/lsc/plugins/connectors/james/JamesDao.java:454-459 | when each write removes its item, a successful reduction removes them all |
| Reconcile.FoldWithin | src/main/java/org/lsc/plugins/connectors/james/JamesDao.java:271-276 | a relation every write preserves holds after the reduction, whatever its outcome |
| Reconcile.FoldRecordsInOrder | src/main/java/org/lsc/plugins/connectors/james/JamesDao.java:421-426 | a successful reduction sent one request per item, in list order |
| Reconcile.FoldSucceeds | src/main/java/org/lsc/plugins/connectors/james/JamesDao.java:182-187 | writes that always succeed make the reduction succeed |
| Reconcile.FoldThrowsOnly | src/main/java/org/lsc/plugins/connectors/james/JamesDao.java:421-426 | the reduction throws only what one of its writes throws |
| DaoModel.CheckResponse | src/main/java/org/lsc/plugins/connectors/james/JamesDao.java:488-490 | true exactly for a 2xx status |
| DaoModel.ReadOutcome | src/main/java/org/lsc/plugins/connectors/james/JamesDao.java:247-257 | a typed read: a value only for a 2xx reply with a decodable body; NotFound exactly for 404; only read errors thrown |
| DaoModel.WriteOutcome | src/main/java/org/lsc/plugins/connectors/james/JamesDao.java:428-452 | a raw write answers true exactly for a 2xx reply and throws exactly when there is no reply |
| DaoModel.Write | src/main/java/org/lsc/plugins/connectors/james/JamesDao.java:428-452 | one write: true exactly when the server accepts it, which then takes effect; otherwise only logged; only ProcessingException thrown |
| DaoModel.UsersNamed | src/main/java/org/lsc/plugins/connectors/james/JamesDao.java:399-408 | one User per listed name, in order |
| DaoModel.ListUsersBy | src/main/java/org/lsc/plugins/connectors/james/JamesDao.java:559-569 | a user listing succeeds exactly when the server answers 2xx, and then gives the listed names as users |
| DaoModel.ComputeToAdd | src/main/java/org/lsc/plugins/connectors/james/JamesDao.java:504-508 | the desired items the server lacks, in desired order |
| DaoModel.ComputeToRemove | src/main/java/org/lsc/plugins/connectors/james/JamesDao.java:511-515 | the held items not desired, in the server's order |
| DaoModel.ComputeForwardsToAdd | src/main/java/org/lsc/plugins/connectors/james/JamesDao.java:103-109 | the desired forwards the server lacks, leaving out a local copy unless allowed (computeForwardsToAdd, lines 319-323) |
| DaoModel.GetAliases | src/main/java/org/lsc/plugins/connectors/james/JamesDao.java:247-257 | the user's aliases; an empty list is a NotFoundException; a failed read throws a read error |
| DaoModel.CreateAlias | src/main/java/org/lsc/plugins/connectors/james/JamesDao.java:428-452 | success adds exactly that alias; failure changes nothing; an encoding failure sends nothing; only that user's aliases change |
| DaoModel.RemoveAlias | src/main/java/org/lsc/plugins/connectors/james/JamesDao.java:461-486 | success removes exactly that alias; failure changes nothing; an encoding failure sends nothing; only that user's aliases change |
| DaoModel.GetForwards | src/main/java/org/lsc/plugins/connectors/james/JamesDao.java:259-269 | the user's forwards; an empty list is a NotFoundException |
| DaoModel.CreateForward | src/main/java/org/lsc/plugins/connectors/james/JamesDao.java:278-306 | success adds exactly that forward; failure changes nothing; only that user's forwards change |
| DaoModel.DeleteForward | src/main/java/org/lsc/plugins/connectors/james/JamesDao.java:337-361 | success removes exactly that forward; failure changes nothing; only that user's forwards change |
| DaoModel.AddressMappingsOf | src/main/java/org/lsc/plugins/connectors/james/JamesDao.java:143-161 | the "Address" entries' targets: a mapping is listed exactly when its Address entry is |
| DaoModel.GetAddressMappings | src/main/java/org/lsc/plugins/connectors/james/JamesDao.java:143-156 | the user's Address mappings, an empty list being no error; a value exactly when the read succeeds |
| DaoModel.CreateAddressMapping | src/main/java/org/lsc/plugins/connectors/james/JamesDao.java:189-210 | success adds exactly that mapping; failure changes nothing; one request sent |
| DaoModel.RemoveAddressMapping | src/main/java/org/lsc/plugins/connectors/james/JamesDao.java:224-245 | success removes exactly that mapping; failure changes nothing; one request sent |
| DaoModel.GetDefaultIdentity | src/main/java/org/lsc/plugins/connectors/james/JamesDao.java:363-375 | the first listed identity; none is a NotFoundException |
| DaoModel.CreateDefaultIdentity | src/main/java/org/lsc/plugins/connectors/james/JamesDao.java:377-397 | success appends the identity to the user's identities; no other user's identities and no other store change |
| DaoModel.AddUser | src/main/java/org/lsc/plugins/connectors/james/JamesDao.java:517-536 | success makes the user exist; failure changes no user; only that user changes |
| DaoModel.RemoveUser | src/main/java/org/lsc/plugins/connectors/james/JamesDao.java:538-557 | success makes the user not exist; failure changes no user; only that user changes |
| DaoModel.UserExists | src/main/java/org/lsc/plugins/connectors/james/JamesDao.java:571-591 | 200 is true and 404 false; no reply is Processing; any other status a JamesClientException; answered naturally it is membership |
| DaoModel.AddDomainContact | src/main/java/org/lsc/plugins/connectors/james/JamesDao.java:593-613 | success stores exactly that contact under its address; only that contact changes |
| DaoModel.GetContact | src/main/java/org/lsc/plugins/connectors/james/JamesDao.java:626-639 | the contact stored under the address; any non-2xx status is a NotFoundException; an address without '@' throws before any request |
| DaoModel.UpdateDomainContact | src/main/java/org/lsc/plugins/connectors/james/JamesDao.java:641-661 | success means the contact existed and now carries the new names; only that contact changes |
| DaoModel.RenameEffect | src/main/java/org/lsc/plugins/connectors/james/JamesDao.java:641-661 | the rename request addresses the contact's own address and replaces only its names |
| DaoModel.RemoveDomainContact | src/main/java/org/lsc/plugins/connectors/james/JamesDao.java:663-683 | success leaves no contact under the address; only that contact changes |
| DaoModel.GetQuotaSize | src/main/java/org/lsc/plugins/connectors/james/JamesMailQuotaSizeDstService.java:57-82 | the user's quota, if any; an unknown user is a NotFoundException |
| DaoModel.SetQuotaSize | src/main/java/org/lsc/plugins/connectors/james/JamesMailQuotaSizeDstService.java:119-133 | success sets exactly that quota; only that user's quota changes; answered naturally, it succeeds exactly for a user the server knows |
| DaoModel.DeleteQuotaSize | src/main/java/org/lsc/plugins/connectors/james/JamesMailQuotaSizeDstService.java:128-140 | success removes the user's quota; only that user's quota changes; answered naturally, it succeeds exactly for a user the server knows |
| Dao.JamesDao.Write | src/main/java/org/lsc/plugins/connectors/james/JamesDao.java:488-490 | a raw request judged by checkResponse reaches DaoModel.Write's outcome and state |
| Dao.JamesDao.ListUsersBy | src/main/java/org/lsc/plugins/connectors/james/JamesDao.java:559-569 | reaches DaoModel.ListUsersBy |
| Dao.JamesDao.GetAliases | src/main/java/org/lsc/plugins/connectors/james/JamesDao.java:247-257 | reaches DaoModel.GetAliases |
| Dao.JamesDao.CreateAlias | src/main/java/org/lsc/plugins/connectors/james/JamesDao.java:428-452 | reaches DaoModel.CreateAlias |
| Dao.JamesDao.CreateAliases | src/main/java/org/lsc/plugins/connectors/james/JamesDao.java:421-426 | the short-circuit loop reaches the fold of CreateAlias |
| Dao.JamesDao.RemoveAlias | src/main/java/org/lsc/plugins/connectors/james/JamesDao.java:461-486 | reaches DaoModel.RemoveAlias |
| Dao.JamesDao.RemoveAliases | src/main/java/org/lsc/plugins/connectors/james/JamesDao.java:454-459 | the short-circuit loop reaches the fold of RemoveAlias |
| Dao.JamesDao.UpdateAliases | src/main/java/org/lsc/plugins/connectors/james/JamesDao.java:492-497 | reaches DaoModel.UpdateAliases: read, removals, then creations |
| Dao.JamesDao.DeleteAliases | src/main/java/org/lsc/plugins/connectors/james/JamesDao.java:499-502 | reaches DaoModel.DeleteAliases |
| Dao.JamesDao.GetUsersListViaAlias | src/main/java/org/lsc/plugins/connectors/james/JamesDao.java:399-408 | reaches the listing of alias owners |
| Dao.JamesDao.GetForwards | src/main/java/org/lsc/plugins/connectors/james/JamesDao.java:259-269 | reaches DaoModel.GetForwards |
| Dao.JamesDao.CreateForward | src/main/java/org/lsc/plugins/connectors/james/JamesDao.java:278-306 | reaches DaoModel.CreateForward |
| Dao.JamesDao.CreateForwards | src/main/java/org/lsc/plugins/connectors/james/JamesDao.java:271-276 | the short-circuit loop reaches the fold of CreateForward |
| Dao.JamesDao.DeleteForward | src/main/java/org/lsc/plugins/connectors/james/JamesDao.java:337-361 | reaches DaoModel.DeleteForward |
| Dao.JamesDao.DeleteForwardsIn | src/main/java/org/lsc/plugins/connectors/james/JamesDao.java:330-335 | the short-circuit loop reaches the fold of DeleteForward |
| Dao.JamesDao.UpdateForwards | src/main/java/org/lsc/plugins/connectors/james/JamesDao.java:312-323 | reaches DaoModel.UpdateForwards: read, then only creations |
| Dao.JamesDao.DeleteForwards | src/main/java/org/lsc/plugins/connectors/james/JamesDao.java:325-328 | reaches DaoModel.DeleteForwards |
| Dao.JamesDao.GetUsersHaveForwards | src/main/java/org/lsc/plugins/connectors/james/JamesDao.java:410-419 | reaches the listing of forward owners |
| Dao.JamesDao.GetAddressMappings | src/main/java/org/lsc/plugins/connectors/james/JamesDao.java:143-156 | reaches DaoModel.GetAddressMappings |
| Dao.JamesDao.CreateAddressMapping | src/main/java/org/lsc/plugins/connectors/james/JamesDao.java:189-210 | reaches DaoModel.CreateAddressMapping |
| Dao.JamesDao.CreateAddressMappings | src/main/java/org/lsc/plugins/connectors/james/JamesDao.java:182-187 | the short-circuit loop reaches the fold of CreateAddressMapping |
| Dao.JamesDao.RemoveAddressMapping | src/main/java/org/lsc/plugins/connectors/james/JamesDao.java:224-245 | reaches DaoModel.RemoveAddressMapping |
| Dao.JamesDao.RemoveAddressMappingsIn | src/main/java/org/lsc/plugins/connectors/james/JamesDao.java:217-222 | the short-circuit loop reaches the fold of RemoveAddressMapping |
| Dao.JamesDao.UpdateAddressMappings | src/main/java/org/lsc/plugins/connectors/james/JamesDao.java:163-180 | reaches DaoModel.UpdateAddressMappings: read, creations, then removals |
| Dao.JamesDao.RemoveAddressMappings | src/main/java/org/lsc/plugins/connectors/james/JamesDao.java:212-215 | reaches DaoModel.RemoveAddressMappings |
| Dao.JamesDao.GetDefaultIdentity | src/main/java/org/lsc/plugins/connectors/james/JamesDao.java:363-375 | reaches DaoModel.GetDefaultIdentity |
| Dao.JamesDao.CreateDefaultIdentity | src/main/java/org/lsc/plugins/connectors/james/JamesDao.java:377-397 | reaches DaoModel.CreateDefaultIdentity |
| Dao.JamesDao.AddUser | src/main/java/org/lsc/plugins/connectors/james/JamesDao.java:517-536 | reaches DaoModel.AddUser |
| Dao.JamesDao.RemoveUser | src/main/java/org/lsc/plugins/connectors/james/JamesDao.java:538-557 | reaches DaoModel.RemoveUser |
| Dao.JamesDao.GetUserList | src/main/java/org/lsc/plugins/connectors/james/JamesDao.java:559-569 | reaches the listing of users |
| Dao.JamesDao.UserExists | src/main/java/org/lsc/plugins/connectors/james/JamesDao.java:571-591 | reaches DaoModel.UserExists |
| Dao.JamesDao.AddDomainContact | src/main/java/org/lsc/plugins/connectors/james/JamesDao.java:593-613 | reaches DaoModel.AddDomainContact |
| Dao.JamesDao.GetUsersListViaDomainContacts | src/main/java/org/lsc/plugins/connectors/james/JamesDao.java:615-624 | reaches the listing of contacts |
| Dao.JamesDao.GetContact | src/main/java/org/lsc/plugins/connectors/james/JamesDao.java:626-639 | reaches DaoModel.GetContact |
| Dao.JamesDao.UpdateDomainContact | src/main/java/org/lsc/plugins/connectors/james/JamesDao.java:641-661 | reaches DaoModel.UpdateDomainContact |
| Dao.JamesDao.RemoveDomainContact | src/main/java/org/lsc/plugins/connectors/james/JamesDao.java:663-683 | reaches DaoModel.RemoveDomainContact |
| Dao.JamesDao.GetQuotaSize | src/main/java/org/lsc/plugins/connectors/james/JamesMailQuotaSizeDstService.java:57-82 | reaches DaoModel.GetQuotaSize |
| Dao.JamesDao.SetQuotaSize | src/main/java/org/lsc/plugins/connectors/james/JamesMailQuotaSizeDstService.java:119-133 | reaches DaoModel.SetQuotaSize |
| Dao.JamesDao.DeleteQuotaSize | src/main/java/org/lsc/plugins/connectors/james/JamesMailQuotaSizeDstService.java:128-140 | reaches DaoModel.DeleteQuotaSize |
| DaoProperties.CreateAliasesAdds | src/main/java/org/lsc/plugins/connectors/james/JamesDao.java:421-452 | success adds every listed alias, one request each in list order; any outcome touches only that user |
| DaoProperties.UpdateAliasesConverges | src/main/java/org/lsc/plugins/connectors/james/JamesDao.java:492-515 | after success the user holds exactly the desired aliases, so nothing is left to add or remove |
| DaoProperties.UpdateAliasesTouchesOnlyTheUser | src/main/java/org/lsc/plugins/connectors/james/JamesDao.java:492-497 | whatever the outcome, no other user's aliases change |
| DaoProperties.UpdateAliasesRemovesFirst | src/main/java/org/lsc/plugins/connectors/james/JamesDao.java:492-497 | after the read, all removal requests come before all creation requests |
| DaoProperties.UpdateAliasesCreatesOnlyAfterRemovals | src/main/java/org/lsc/plugins/connectors/james/JamesDao.java:492-497 | no alias is created unless every surplus alias was first removed, in the server's order |
| DaoProperties.DeleteAliasesEmpties | src/main/java/org/lsc/plugins/connectors/james/JamesDao.java:499-502 | success leaves the user without aliases; only that user changes |
| DaoProperties.UpdateAliasesFaultless | src/main/java/org/lsc/plugins/connectors/james/JamesDao.java:492-497 | with no faults, update succeeds exactly when the user already has an alias, else NotFound |
| DaoProperties.ReconciledMembers | src/main/java/org/lsc/plugins/connectors/james/JamesDao.java:163-180 | adding the missing and removing the surplus gives the desired set |
| DaoProperties.MappingPhasesReconcile | src/main/java/org/lsc/plugins/connectors/james/JamesDao.java:163-168 | creating then removing the computed mappings leaves the desired ones |
| DaoProperties.NothingToReconcile | src/main/java/org/lsc/plugins/connectors/james/JamesDao.java:170-180 | lists with the same members leave nothing to add or remove |
| DaoProperties.UpdateAddressMappingsConverges | src/main/java/org/lsc/plugins/connectors/james/JamesDao.java:163-180 | after success the user's Address mappings are exactly the desired ones |
| DaoProperties.UpdateAddressMappingsTouchesOnlyTheUser | src/main/java/org/lsc/plugins/connectors/james/JamesDao.java:163-168 | whatever the outcome, no other user's mappings change |
| DaoProperties.UpdateAddressMappingsCreatesFirst | src/main/java/org/lsc/plugins/connectors/james/JamesDao.java:163-168 | after the read, all creation requests come before all removal requests |
| DaoProperties.UpdateAddressMappingsRemovesOnlyAfterCreations | src/main/java/org/lsc/plugins/connectors/james/JamesDao.java:163-168 | no mapping is removed unless every missing one was first created, in desired order |
| DaoProperties.UpdateAddressMappingsFaultless | src/main/java/org/lsc/plugins/connectors/james/JamesDao.java:143-168 | with no faults the update always succeeds, even with no mappings, and leaves the desired mappings |
| DaoProperties.RemoveAddressMappingsEmpties | src/main/java/org/lsc/plugins/connectors/james/JamesDao.java:212-215 | success leaves the user without Address mappings; only that user changes |
| DaoProperties.CreateForwardsAdds | src/main/java/org/lsc/plugins/connectors/james/JamesDao.java:271-306 | success adds every listed forward in order; no forward is ever removed; only that user changes |
| DaoProperties.ForwardCreationsOnlyAdd | src/main/java/org/lsc/plugins/connectors/james/JamesDao.java:271-276 | creating forwards keeps every held forward and adds only listed ones |
| DaoProperties.UpdateForwardsOnlyAdds | src/main/java/org/lsc/plugins/connectors/james/JamesDao.java:312-323 | update never removes a forward, and adds only desired ones that may be synced |
| DaoProperties.UpdateForwardsAddsTheMissing | src/main/java/org/lsc/plugins/connectors/james/JamesDao.java:312-323 | after success the forwards are those held before plus the desired ones that may be synced |
| DaoProperties.DeleteForwardsEmpties | src/main/java/org/lsc/plugins/connectors/james/JamesDao.java:325-335 | success leaves the user without forwards; only that user changes |
| DaoProperties.FoldThrowsProcessing | src/main/java/org/lsc/plugins/connectors/james/JamesDao.java:421-426 | a reduction of raw writes throws at most a ProcessingException |
| DaoProperties.AliasOperationsThrowReadErrors | src/main/java/org/lsc/plugins/connectors/james/JamesDao.java:421-502 | create throws only Processing; update and delete throw only read errors |
| DaoProperties.ForwardOperationsThrowReadErrors | src/main/java/org/lsc/plugins/connectors/james/JamesDao.java:271-335 | create throws only Processing; update and delete throw only read errors |
| DaoProperties.MappingOperationsThrowReadErrors | src/main/java/org/lsc/plugins/connectors/james/JamesDao.java:163-222 | update and remove throw only read errors |
| AliasDst.AliasesFromSource | src/main/java/org/lsc/plugins/connectors/james/JamesAliasDstService.java:231-238 | one alias per value of "sources", in order; absent exactly when the attribute is |
| AliasDst.ToDataset | src/main/java/org/lsc/plugins/connectors/james/JamesAliasDstService.java:154-162 | exactly the email and the aliases' sources, in order |
| AliasDst.DatasetCarriesSources | src/main/java/org/lsc/plugins/connectors/james/JamesAliasDstService.java:154-162 | the bean's "sources" are the values the modification carried (round trip) |
| AliasDst.GetBeanOutcome | src/main/java/org/lsc/plugins/connectors/james/JamesAliasDstService.java:112-145 | no bean without a pivot; after a successful read, a bean exactly when the user has aliases, holding them |
| AliasDst.ListPivotsOutcome | src/main/java/org/lsc/plugins/connectors/james/JamesAliasDstService.java:165-183 | on success the pivots are exactly the owners that hold aliases |
| AliasDst.ApplyOutcome | src/main/java/org/lsc/plugins/connectors/james/JamesAliasDstService.java:186-229 | no id is false; change of id is true; create without "sources" is true; update without it is false, all with no request |
| AliasDst.ApplyTouchesOnlyTheUser | src/main/java/org/lsc/plugins/connectors/james/JamesAliasDstService.java:186-229 | any operation changes only that user's aliases |
| AliasDst.ApplyCreateAdds | src/main/java/org/lsc/plugins/connectors/james/JamesAliasDstService.java:199-202 | a successful create added every listed alias, one request each, with no read first |
| AliasDst.ApplyUpdateConverges | src/main/java/org/lsc/plugins/connectors/james/JamesAliasDstService.java:203-210 | a successful update leaves exactly the listed aliases (none for an empty list) |
| AliasDst.ApplyWithoutAliases | src/main/java/org/lsc/plugins/connectors/james/JamesAliasDstService.java:203-228 | update or delete of a user without aliases answers false and changes nothing |
| AliasDst.ApplyDeleteEmpties | src/main/java/org/lsc/plugins/connectors/james/JamesAliasDstService.java:211-214 | a successful delete leaves the user without aliases |
| AliasDst.ApplyThrowsOnlyWebApplication | src/main/java/org/lsc/plugins/connectors/james/JamesAliasDstService.java:222-228 | what escapes apply is only a read's unexpected status |
| AliasDst.ApplyUpdateFaultless | src/main/java/org/lsc/plugins/connectors/james/JamesAliasDstService.java:203-210 | with no faults, update answers true exactly when the user had an alias |
| AliasDst.JamesAliasDstService.GetBean | src/main/java/org/lsc/plugins/connectors/james/JamesAliasDstService.java:112-145 | reaches AliasDst.GetBeanOutcome |
| AliasDst.JamesAliasDstService.GetListPivots | src/main/java/org/lsc/plugins/connectors/james/JamesAliasDstService.java:165-183 | reaches AliasDst.ListPivotsOutcome |
| AliasDst.JamesAliasDstService.Apply | src/main/java/org/lsc/plugins/connectors/james/JamesAliasDstService.java:186-229 | reaches AliasDst.ApplyOutcome |
| ForwardDst.ForwardsFromSource | src/main/java/org/lsc/plugins/connectors/james/JamesForwardDstService.java:178-185 | one forward per value of "forwards", in order; absent exactly when the attribute is |
| ForwardDst.ToDataset | src/main/java/org/lsc/plugins/connectors/james/JamesForwardDstService.java:168-176 | exactly the email and the forwards' addresses, in order |
| ForwardDst.GetBeanOutcome | src/main/java/org/lsc/plugins/connectors/james/JamesForwardDstService.java:59-90 | no bean without a pivot; after a successful read, a bean exactly when the user has forwards |
| ForwardDst.ListPivotsOutcome | src/main/java/org/lsc/plugins/connectors/james/JamesForwardDstService.java:93-112 | on success the pivots are exactly the owners that hold forwards |
| ForwardDst.ApplyOutcome | src/main/java/org/lsc/plugins/connectors/james/JamesForwardDstService.java:115-154 | no id is false; change of id is true; create without "forwards" is true; update without it is false |
| ForwardDst.ApplyTouchesOnlyTheUser | src/main/java/org/lsc/plugins/connectors/james/JamesForwardDstService.java:115-154 | any operation changes only that user's forwards |
| ForwardDst.ApplyCreateAdds | src/main/java/org/lsc/plugins/connectors/james/JamesForwardDstService.java:129-132 | a successful create added every listed forward, local copies included |
| ForwardDst.ApplyUpdateOnlyAdds | src/main/java/org/lsc/plugins/connectors/james/JamesForwardDstService.java:133-140 | update never removes a forward; each one added is listed and not a local copy unless allowed |
| ForwardDst.ApplyUpdateAddsTheMissing | src/main/java/org/lsc/plugins/connectors/james/JamesForwardDstService.java:133-140 | a successful update leaves the held forwards plus the listed ones that may be synced |
| ForwardDst.ApplyWithoutForwards | src/main/java/org/lsc/plugins/connectors/james/JamesForwardDstService.java:133-153 | update or delete of a user without forwards answers false and changes nothing |
| ForwardDst.ApplyDeleteEmpties | src/main/java/org/lsc/plugins/connectors/james/JamesForwardDstService.java:141-144 | a successful delete leaves the user without forwards |
| ForwardDst.ApplyThrowsOnlyWebApplication | src/main/java/org/lsc/plugins/connectors/james/JamesForwardDstService.java:147-153 | what escapes apply is only a read's unexpected status |
| ForwardDst.JamesForwardDstService.GetBean | src/main/java/org/lsc/plugins/connectors/james/JamesForwardDstService.java:59-90 | reaches ForwardDst.GetBeanOutcome |
| ForwardDst.JamesForwardDstService.GetListPivots | src/main/java/org/lsc/plugins/connectors/james/JamesForwardDstService.java:93-112 | reaches ForwardDst.ListPivotsOutcome |
| ForwardDst.JamesForwardDstService.Apply | src/main/java/org/lsc/plugins/connectors/james/JamesForwardDstService.java:115-154 | reaches ForwardDst.ApplyOutcome with the service's local-copy flag |
| AddressMappingDst.AddressMappingsFromLdap | src/main/java/org/lsc/plugins/connectors/james/JamesAddressMappingDstService.java:176-182 | one mapping per value of "addressMappings", in order; absent exactly when the attribute is |
| AddressMappingDst.ToDataset | src/main/java/org/lsc/plugins/connectors/james/JamesAddressMappingDstService.java:166-174 | exactly the email and the mapping targets, in order |
| AddressMappingDst.GetBeanOutcome | src/main/java/org/lsc/plugins/connectors/james/JamesAddressMappingDstService.java:58-89 | no bean for an unknown user and no second request; for a known user a bean even with no mappings; only LSC or JamesClient exceptions escape |
| AddressMappingDst.ApplyOutcome | src/main/java/org/lsc/plugins/connectors/james/JamesAddressMappingDstService.java:114-152 | no id is false; create and change of id are true with no request; update without the attribute is false |
| AddressMappingDst.ApplyTouchesOnlyTheUser | src/main/java/org/lsc/plugins/connectors/james/JamesAddressMappingDstService.java:114-152 | any operation changes only that user's mappings |
| AddressMappingDst.ApplyUpdateConverges | src/main/java/org/lsc/plugins/connectors/james/JamesAddressMappingDstService.java:114-152 | a successful update leaves exactly the listed targets as Address mappings |
| AddressMappingDst.SameTargets | src/main/java/org/lsc/plugins/connectors/james/JamesAddressMappingDstService.java:166-182 | mappings with the same members have the same targets |
| AddressMappingDst.ApplyUpdateFaultless | src/main/java/org/lsc/plugins/connectors/james/JamesAddressMappingDstService.java:114-152 | with no faults an update always answers true |
| AddressMappingDst.ApplyDeleteEmpties | src/main/java/org/lsc/plugins/connectors/james/JamesAddressMappingDstService.java:114-152 | a successful delete leaves no Address mapping |
| AddressMappingDst.ApplyThrowsOnlyWebApplication | src/main/java/org/lsc/plugins/connectors/james/JamesAddressMappingDstService.java:114-152 | what escapes apply is only a read's unexpected status |
| AddressMappingDst.JamesAddressMappingDstService.GetBean | src/main/java/org/lsc/plugins/connectors/james/JamesAddressMappingDstService.java:58-89 | reaches AddressMappingDst.GetBeanOutcome |
| AddressMappingDst.JamesAddressMappingDstService.GetListPivots | src/main/java/org/lsc/plugins/connectors/james/JamesAddressMappingDstService.java:92-111 | reaches Lsc.UserPivotsOutcome |
| AddressMappingDst.JamesAddressMappingDstService.Apply | src/main/java/org/lsc/plugins/connectors/james/JamesAddressMappingDstService.java:114-152 | reaches AddressMappingDst.ApplyOutcome |
| QuotaDst.QuotaSizeFromSource | src/main/java/org/lsc/plugins/connectors/james/JamesMailQuotaSizeDstService.java:182-189 | none exactly when "mailQuotaSize" has no first value; NumberFormatException exactly when that value is not a long; otherwise its parsed value |
| QuotaDst.ToDataset | src/main/java/org/lsc/plugins/connectors/james/JamesMailQuotaSizeDstService.java:175-180 | exactly the email and the quota printed in decimal |
| QuotaDst.DatasetRoundTrip | src/main/java/org/lsc/plugins/connectors/james/JamesMailQuotaSizeDstService.java:175-189 | a quota read back in a bean and carried by a modification parses to the same quota |
| QuotaDst.GetBeanOutcome | src/main/java/org/lsc/plugins/connectors/james/JamesMailQuotaSizeDstService.java:57-82 | answered naturally, a bean exactly for a known user with a quota; only LSC exceptions escape |
| QuotaDst.ApplyOutcome | src/main/java/org/lsc/plugins/connectors/james/JamesMailQuotaSizeDstService.java:107-154 | no id and change of id are false; create without a value is false; a malformed value is false with no request |
| QuotaDst.ApplyNeverThrows | src/main/java/org/lsc/plugins/connectors/james/JamesMailQuotaSizeDstService.java:120-153 | apply never throws |
| QuotaDst.ApplyTouchesOnlyTheUser | src/main/java/org/lsc/plugins/connectors/james/JamesMailQuotaSizeDstService.java:107-154 | any operation changes only that user's quota |
| QuotaDst.ApplySetsTheQuota | src/main/java/org/lsc/plugins/connectors/james/JamesMailQuotaSizeDstService.java:119-136 | create or update with a valid value answers true exactly when the server accepts it, and then sets the parsed quota |
| QuotaDst.ApplyRemovesTheQuota | src/main/java/org/lsc/plugins/connectors/james/JamesMailQuotaSizeDstService.java:129-140 | update without a value, and delete, answer true exactly when the removal is accepted, and then leave no quota |
| QuotaDst.ApplyForUnknownUserFails | src/main/java/org/lsc/plugins/connectors/james/JamesMailQuotaSizeDstService.java:107-152 | on a faultless server, apply for a user the server does not know answers false and changes no quota |
| QuotaDst.JamesMailQuotaSizeDstService.GetBean | src/main/java/org/lsc/plugins/connectors/james/JamesMailQuotaSizeDstService.java:57-82 | reaches QuotaDst.GetBeanOutcome |
| QuotaDst.JamesMailQuotaSizeDstService.GetListPivots | src/main/java/org/lsc/plugins/connectors/james/JamesMailQuotaSizeDstService.java:85-104 | reaches Lsc.UserPivotsOutcome |
| QuotaDst.JamesMailQuotaSizeDstService.Apply | src/main/java/org/lsc/plugins/connectors/james/JamesMailQuotaSizeDstService.java:107-154 | reaches QuotaDst.ApplyOutcome |
| IdentityDst.ExtractIdentity | src/main/java/org/lsc/plugins/connectors/james/JamesIdentityDstService.java:176-192 | the main identifier, the display name of the first name and surname values, sort order 0 |
| IdentityDst.ExtractedDisplayName | src/main/java/org/lsc/plugins/connectors/james/JamesIdentityDstService.java:176-192 | no names gives the address as display name; both give "first surname" |
| IdentityDst.ToDataset | src/main/java/org/lsc/plugins/connectors/james/JamesIdentityDstService.java:170-174 | exactly the email |
| IdentityDst.GetBeanOutcome | src/main/java/org/lsc/plugins/connectors/james/JamesIdentityDstService.java:62-98 | after a successful read, a bean exactly when the user has an identity; only LSC exceptions escape |
| IdentityDst.ApplyOutcome | src/main/java/org/lsc/plugins/connectors/james/JamesIdentityDstService.java:122-156 | no id is false; every operation but create is true with no request |
| IdentityDst.ApplyCreateAdds | src/main/java/org/lsc/plugins/connectors/james/JamesIdentityDstService.java:130-133 | create never throws, answers true exactly when the server accepts it, and then the extracted identity is the newest; only that user's identities change |
| IdentityDst.ApplyCreateMakesDefault | src/main/java/org/lsc/plugins/connectors/james/JamesIdentityDstService.java:130-133 | for a user without identities, a successful create makes the extracted identity the default one |
| IdentityDst.ApplyCreatePreProvisions | src/main/java/org/lsc/plugins/connectors/james/JamesIdentityDstService.java:130-133 | on a faultless server, create answers true and appends the extracted identity even for a user the server does not know yet |
| IdentityDst.JamesIdentityDstService.GetBean | src/main/java/org/lsc/plugins/connectors/james/JamesIdentityDstService.java:62-98 | reaches IdentityDst.GetBeanOutcome |
| IdentityDst.JamesIdentityDstService.GetListPivots | src/main/java/org/lsc/plugins/connectors/james/JamesIdentityDstService.java:101-119 | reaches Lsc.UserPivotsOutcome |
| IdentityDst.JamesIdentityDstService.Apply | src/main/java/org/lsc/plugins/connectors/james/JamesIdentityDstService.java:122-156 | reaches IdentityDst.ApplyOutcome |
| ContactDst.ExtractContact | src/main/java/org/lsc/plugins/connectors/james/TMailContactDstService.java:168-182 | the main identifier with the first values of "firstname" and "surname" |
| ContactDst.ToDataset | src/main/java/org/lsc/plugins/connectors/james/TMailContactDstService.java:191-197 | the email, and each name exactly when it is present |
| ContactDst.DatasetRoundTrip | src/main/java/org/lsc/plugins/connectors/james/TMailContactDstService.java:168-197 | a contact's bean, carried back in a modification, extracts to the same contact |
| ContactDst.GetBeanOutcome | src/main/java/org/lsc/plugins/connectors/james/TMailContactDstService.java:105-146 | no bean and no request for a domain not listed; answered naturally, a bean exactly when a contact is stored; an address without '@' throws |
| ContactDst.ListPivotsOutcome | src/main/java/org/lsc/plugins/connectors/james/TMailContactDstService.java:149-166 | on success the pivots are exactly the stored contacts' addresses, whatever their domain |
| ContactDst.ContactEmailsFound | src/main/java/org/lsc/plugins/connectors/james/JamesDao.java:615-624 | an address is listed exactly when a contact is stored under it |
| ContactDst.ApplyOutcome | src/main/java/org/lsc/plugins/connectors/james/TMailContactDstService.java:61-97 | no id, an unlisted domain, change of id, and an update without names are false with no request |
| ContactDst.ApplyTouchesOnlyTheContact | src/main/java/org/lsc/plugins/connectors/james/TMailContactDstService.java:61-97 | any operation changes only the contact under that address |
| ContactDst.ApplyCreateStores | src/main/java/org/lsc/plugins/connectors/james/TMailContactDstService.java:72-74 | a successful create stores the extracted contact |
| ContactDst.ApplyUpdateRenames | src/main/java/org/lsc/plugins/connectors/james/TMailContactDstService.java:75-83 | a successful update had a name, found a stored contact, and leaves it with exactly the extracted names |
| ContactDst.ApplyDeleteRemoves | src/main/java/org/lsc/plugins/connectors/james/TMailContactDstService.java:84-86 | a successful delete leaves no contact under the address |
| ContactDst.ApplyThrowsOnlyForAddressWithoutAt | src/main/java/org/lsc/plugins/connectors/james/TMailContactDstService.java:61-97 | only a StringIndexOutOfBoundsException escapes, from an update or delete of an address without '@', with no request sent |
| ContactDst.TMailContactDstService.constructor | src/main/java/org/lsc/plugins/connectors/james/config/SyncContactConfig.java:9-10 | the allow-list is the one for the environment value |
| ContactDst.TMailContactDstService.Apply | src/main/java/org/lsc/plugins/connectors/james/TMailContactDstService.java:61-97 | reaches ContactDst.ApplyOutcome for the service's allow-list |
| ContactDst.TMailContactDstService.GetBean | src/main/java/org/lsc/plugins/connectors/james/TMailContactDstService.java:105-146 | reaches ContactDst.GetBeanOutcome |
| ContactDst.TMailContactDstService.GetListPivots | src/main/java/org/lsc/plugins/connectors/james/TMailContactDstService.java:149-166 | reaches ContactDst.ListPivotsOutcome |
| UserDst.GetBeanOutcome | src/main/java/org/lsc/plugins/connectors/james/JamesUserDstService.java:129-165 | answered naturally, a bean exactly for an existing user; a bean only for an existing user; only LscServiceCommunication or JamesClient exceptions escape |
| Lsc.UserPivotsOutcome | src/main/java/org/lsc/plugins/connectors/james/JamesUserDstService.java:168-186 | the listing sends one user-list request; on success the pivots are exactly the server's users; it fails exactly when that request fails (shared by the user, identity, quota and address-mapping services) |
| UserDst.ApplyOutcome | src/main/java/org/lsc/plugins/connectors/james/JamesUserDstService.java:98-121 | no id is false; update and change of id are true with no request |
| UserDst.ApplyTouchesOnlyTheUser | src/main/java/org/lsc/plugins/connectors/james/JamesUserDstService.java:98-121 | apply never throws and changes only whether that user exists |
| UserDst.ApplyCreateAdds | src/main/java/org/lsc/plugins/connectors/james/JamesUserDstService.java:108-109 | create answers true exactly when the server accepts the new user, who then exists |
| UserDst.ApplyDeleteRemoves | src/main/java/org/lsc/plugins/connectors/james/JamesUserDstService.java:110-111 | delete answers true exactly when the server accepts it, and then the user does not exist |
| UserDst.ApplyCreateExistingUserFails | src/main/java/org/lsc/plugins/connectors/james/JamesUserDstService.java:108-109 | on a faultless server, creating a user that already exists or a name without a domain part answers false and leaves the users unchanged |
| UserDst.CreatedUserIsFound | src/main/java/org/lsc/plugins/connectors/james/JamesUserDstService.java:98-165 | after a successful create getBean finds the user; after a successful delete it does not |
| UserDst.JamesUserDstService.Apply | src/main/java/org/lsc/plugins/connectors/james/JamesUserDstService.java:98-121 | reaches UserDst.ApplyOutcome |
| UserDst.JamesUserDstService.GetBean | src/main/java/org/lsc/plugins/connectors/james/JamesUserDstService.java:129-165 | reaches UserDst.GetBeanOutcome |
| UserDst.JamesUserDstService.GetListPivots | src/main/java/org/lsc/plugins/connectors/james/JamesUserDstService.java:168-186 | reaches Lsc.UserPivotsOutcome |

## Where the model follows the code over the documentation

- The forward service calls `updateForwards(user, forwards)` with two arguments (`JamesForwardDstService.java:136`). `JamesDao` declares only a three-argument `updateForwards` that takes the local-copy flag. The model treats the flag as a constant of the service, `allowSynchronizeLocalCopyForwards`, and passes it to the DAO.
- Forward CREATE passes every listed forward to `createForwards`, local copies included. The local-copy filter of `computeForwardsToAdd` applies only to UPDATE. The model follows the code (`ForwardDst.ApplyCreateAdds`).
- Identity UPDATE, DELETE and change of id return true without any request. CREATE always posts a new identity and does not look for an existing default first. The model follows the code (`IdentityDst.ApplyOutcome`).
- Address-mapping `getBean` does not catch NotFoundException on its own. Like any WebApplicationException it becomes an LscServiceException. The model follows the code.
- The quota service's change of id returns false, unlike the other services, which return true. The model follows the code.

## Left out

- `getQuotaSize`, `setQuotaSize` and `deleteQuotaSize` are called by JamesMailQuotaSizeDstService but are not declared in JamesDao.java. They are modelled as one request each on the simulated server: a read, a set and a removal of the user's quota. The server answers 404 to each of them for a user it does not know.
- DaoModel.SetQuotaSize, DaoModel.DeleteQuotaSize: modelled as raw writes judged by `checkResponse`, which throw only ProcessingException. If the real methods were typed writes that threw another WebApplicationException, it would escape the catch clauses of `apply`, so `QuotaDst.ApplyNeverThrows` rests on this assumption.
- `User.toDatasets` (beans/User.java) is not part of this model. Services take it as a parameter `toDatasets: User -> Datasets`.
- UserDst.JamesUserDstService.Apply: the password of a new user is a parameter. It stands for `RandomStringUtils.randomAlphanumeric(USER_PASSWORD_LENGTH)`, a random 24-character value, so the model does not state its length or alphabet.
- The HTTP transport, JSON encoding, URL building and the authentication token are not modelled. Requests are values of `Remote.Call`, and the server decodes the path again.
- `urlEncode` throwing UnsupportedEncodingException is modelled as an encoder that may refuse an address (`DaoModel.Encoder`). For that item the write answers false.
- JsonProcessingException, from serialising an identity or a contact, is not modelled, because the model has no JSON layer.
- InstantiationException and IllegalAccessException, from creating the bean class reflectively, are not modelled. The bean is always built.
- LongCodec.ParseLong: accepts ASCII digits only. Long.parseLong, through Character.digit, also accepts the other Unicode decimal digits (for example "١٢"); the model has no Unicode digit table.
- DaoModel.GetDefaultIdentity: the request with `?default=true` is modelled as listing the user's identities and taking the first. The two agree while the identity the connector creates is the first one stored for that user; the server's own choice of default is not modelled.
- Logging is not modelled, because it has no effect.
- The services' constructors read the connector's configuration, so they are modelled only by the DAO they are given. `getWriteDatasetIds` returns that configuration unchanged and is left out.
- The environment variable `DOMAIN_LIST_TO_SYNCHRONIZE` is read once, at class load. The model passes its value to the contact service's constructor.
- Concurrency is not modelled. The LSC runtime calls a service from one synchronisation at a time.
- `ImmutableMap.copyOf` is not modelled, beyond the map being a value.
