# Thesis fair microservices — a Dafny model of the request-handling core

The system is a set of GraphQL microservices for a university thesis fair:

- a user service: students, representatives of companies ("entities") and admins;
- an event service;
- an entity service;
- a vote service;
- an API gateway that authenticates every request with a JWT;
- a browser/CLI client library (`userStories/src/api.js`) that builds GraphQL selection sets and talks to the gateway.

This project models the decision logic of those parts, and proves what each operation promises:

- **Client library** (`ApiClient`):
  - `genBody`: white/blacklist projections, and dotted fields grouped under their parents in first-seen order, including the TypeError of a parent named like a property every object inherits (`constructor`, `toString`, …);
  - the per-type `bodies`;
  - the three-part token check of `unpackToken`;
  - the `Authorization` header;
  - how `graphql` maps an HTTP outcome to a returned value or a thrown one;
  - the state the factory closure keeps: trace, cache, token, local storage. This is a `Client` class whose methods update those fields. The global tracing flag is a `Tracer` class, which `graphql` and `login` read.
- **Gateway authentication** (`GatewayAuth`): the middleware as a function from the header, the debug parameter, `JSON.parse` and `jwt.verify` to the effect on `req.user` and the `next` calls.
- **User service** (`UserService`):
  - the permission checks of every mutation;
  - `apiToken` (login) and the claims it signs;
  - random passwords and the account-creation mail;
  - `$set`, `$push` and `$pull` patches on the user collection, a `UserDb` class whose methods update a `users` sequence and a `files` map (the CV directory).
- **Event service** (`EventService`):
  - the entity-existence check;
  - the `events` filter;
  - create, update, delete, add entity and remove entity on an `EventDb` class.
- **Entity service** (`EntityService`):
  - lookups, the update permission, and the linked-projects check before a delete;
  - the CSV import that skips known external ids, on an `EntityDb` class.
- **Vote service** (`VoteService`):
  - `votesOfStudent`;
  - `votesOfEntity`, a nested loop proved against a reference definition;
  - `votesOfProject`, with the admin/representative/other query choice.
- **Cross-service facts** (`Integration`):
  - the token the client sends is the token the gateway verifies;
  - the event service's existence check agrees with the entity service's `entity` lookup, when the entity service answers the `entities` query.

Shared pieces are in `Common` (Option/Result/Outcome, JWT claims, `$set` of optional arguments), `Lists` (`Count`, `$pull`, split/join) and `Store` (a Mongo collection as a sequence of documents: `findById`, `find`, replace, remove).

Parameters stand in for everything nondeterministic or external:

- the amqp RPC replies the services get from one another;
- `bcrypt.hash` and `bcrypt.compare`;
- `jwt.verify`, and `JSON.parse` of the debug parameter;
- the random draws behind `crypto.randomInt`;
- new document ids;
- `isValidObjectId`;
- the HTTP outcome of an axios POST, with its interceptor timings;
- the CSV parser's result;
- the permission oracles of `permissions.js`, which enter as an `Outcome`.

## Model

| member | source | states |
|---|---|---|
| ApiClient.GenBody | userStories/src/api.js:41-76 | the result is `Body` of the projection (absent = empty); it is an error exactly when some value's truthiness differs from the first one's (with the mixing message) or a selected dotted field's parent is a name every object inherits (with the `push` TypeError) |
| ApiClient.GroupDotted | userStories/src/api.js:60-69 | the loop fails exactly when some field's parent is an inherited name such as `constructor` or `toString`, which `in` finds on `{}` so no array is created and `push` throws; otherwise the parent order and `complexFields` map equal the reference grouping `Grouped` of the dotted fields |
| ApiClient.InheritedParentThrows | userStories/src/api.js:64-68 | the whitelist `{ "constructor.name": true }` makes `genBody` throw the `push` TypeError |
| ApiClient.BodyFailure | userStories/src/api.js:41-76 | over possible fields without an inherited parent, `genBody` fails exactly on a mixed projection or a whitelist with an inherited dotted key, and the mixing check comes first |
| ApiClient.FixedFieldsInheritNothing | userStories/src/api.js:78-86 | none of the `fields` lists has a dotted field under an inherited name |
| ApiClient.AppendFragments | userStories/src/api.js:71-73 | the loop appends exactly one ` parent {children}` fragment per parent, in the given order |
| ApiClient.SelectionRule | userStories/src/api.js:42-56 | a whitelist selects its keys in key order whatever the possible fields; a blacklist keeps exactly the possible fields not listed, in their order, and splits over concatenation |
| ApiClient.NoProjectionSelectsAll | userStories/src/api.js:42-56 | with no projection every possible field is selected, in order |
| ApiClient.GroupedSpec | userStories/src/api.js:60-69 | a parent is grouped iff some field has it; each parent appears once; the map's keys are exactly the listed parents; each parent's children are its fields' children in field order; parents come in the order of their first field |
| ApiClient.PlainRender | userStories/src/api.js:58 | when no field is dotted, the body is the space-joined field list |
| ApiClient.Bodies | userStories/src/api.js:88-96 | a body fails iff the projection mixes (mixing message) or is a whitelist with a dotted key under an inherited name (`push` TypeError); the User body is the three inline fragments over the UserBase, Student and Representative fields; Student and Representative are a UserBase fragment followed by their own fields; Entity, Event, Project and StudentVote are `genBody` of their fields |
| ApiClient.DefaultEntityBody | userStories/src/api.js:82 | with no projection the entity body is `enid name description type external_id contact {type content}`: the contact subfields are grouped after the plain fields |
| ApiClient.UnpackToken | userStories/src/api.js:29-35 | a falsy token gives null; a truthy one fails iff it does not have exactly two dots, with the message naming the real part count; the payload has no dot |
| ApiClient.UnpackTokenPayload | userStories/src/api.js:32-38 | a token with three parts unpacks to its middle part, and the token is head.payload.tail |
| ApiClient.AuthorizationHeader | userStories/src/api.js:147 | the header is `Bearer ` followed by the token, or by `null` when there is none |
| ApiClient.GraphqlAnswer | userStories/src/api.js:151-176 | a value is returned iff the server answered without `errors`, and it is `data`; a reply with errors is thrown whole; a rejection without status is rethrown; 401 becomes "APItoken is invalid"; any other status throws the response data |
| ApiClient.Tracer.constructor | userStories/src/api.js:5 | tracing starts off, with no interceptors |
| ApiClient.Tracer.EnableTrace | userStories/src/api.js:10-27 | a second call only warns; the first turns tracing on and installs the start-time and duration interceptors once |
| ApiClient.Client.constructor | userStories/src/api.js:98-105 | a fresh client has an empty trace, no cache, and the given url, token and token data |
| ApiClient.Client.Create | userStories/src/api.js:98-105 | the factory fails iff the stored token is malformed; otherwise it defaults the url by environment, reads the token from local storage when there is one, and keeps its payload or `{}` |
| ApiClient.Client.ClearTrace | userStories/src/api.js:182 | the trace becomes empty and nothing else changes |
| ApiClient.Client.GetTrace | userStories/src/api.js:183 | returns the trace |
| ApiClient.Client.EnableCaching | userStories/src/api.js:184-192 | a second call only warns; the first creates a cache with TTL `ttl` and check period `ttl + 1` |
| ApiClient.Client.GetApiTokenData | userStories/src/api.js:194 | returns the unpacked token data |
| ApiClient.Client.Graphql | userStories/src/api.js:137-177 | sends the bearer header of the current token, answers as `GraphqlAnswer`, appends a trace entry only for a response while the shared tracer is on, and changes nothing else |
| ApiClient.Client.Login | userStories/src/api.js:106-135 | a rejected POST and a reply with errors throw without changing the session; otherwise the token is replaced and written to storage as text, the trace grows when the shared tracer is on, and the token data becomes the unpacked payload or the unpack error is thrown |
| ApiClient.Client.Logout | userStories/src/api.js:197-203 | without local storage the call throws and changes nothing; with it, storage is cleared and token and token data become null |
| GatewayAuth.Authenticate | msa/API_gateway/src/auth.js:3-36 | exactly one `next` call unless the debug parse throws; the debug parameter bypasses the header; a user is set iff `next` is called without error; each header case gives its 401 message; a bearer header verifies the text after `Bearer ` |
| GatewayAuth.QueryIgnoredOutsideDebug | msa/API_gateway/src/auth.js:4-8 | unless debug mode is on and the query parameter is truthy, the query parameter and its parser do not affect the request at all |
| GatewayAuth.UserOnlyFromVerifier | msa/API_gateway/src/auth.js:4-35 | a user is set only from the parsed debug parameter in debug mode, or from the payload `jwt.verify` reports for the token of a `Bearer ` header |
| Integration.ClientTokenReachesVerifier | msa/API_gateway/src/auth.js:20-22 | the token the client puts in its header is the token the gateway verifies, and the text `null` when the client has none |
| Integration.ExistenceCheckMatchesStore | msa/event_service/src/graphql.js:9-22 | against the entity service's own `entities` answer, the existence check passes iff every enid has an entity |
| UserService.RandomPassword | msa/user_service/src/graphql.js:16-25 | the password has the requested length, its i-th character is the alphabet character of the i-th draw, and all its characters are in the 70-character alphabet |
| UserService.ResolveType | msa/user_service/src/graphql.js:34-42 | a student resolves to Student, a representative to Representative, anything else to Admin |
| UserService.ClaimsOf | msa/user_service/src/graphql.js:124-139 | the admin flag wins over the role; otherwise students get `s` and representatives `r` with their enid; `repAdmin` is present (and true) only for representative admins; a plain non-admin user gets no type |
| UserService.ClaimsAgreeWithResolveType | msa/user_service/src/graphql.js:34-42 | the claims' type agrees with the GraphQL type resolution |
| UserService.ApiToken | msa/user_service/src/graphql.js:116-134 | fails with "No user with that email found." iff no user has the email; succeeds iff the first user with the email has a matching password, and then signs that user's claims |
| UserService.ApiTokenFirstMatch | msa/user_service/src/graphql.js:117-122 | the first document with the email decides the login, whatever comes after it |
| UserService.RepresentativeEnid | msa/user_service/src/graphql.js:223 | the projection has no value iff no representative has that id, else it is that representative's enid |
| UserService.MayActForStudent | msa/user_service/src/graphql.js:260 | admins may always act for a student; otherwise only the caller whose uid is the student's; representatives and callers without a type never |
| UserService.CreateRepresentativeCheck | msa/user_service/src/graphql.js:171-177 | creation is allowed iff the caller is an admin or a representative admin of the same entity |
| UserService.UpdateRepresentativeGuardAsWritten | msa/user_service/src/graphql.js:220-226 | the guard passes iff admin, self, or representative admin of the target's entity; it throws the null-access TypeError iff a representative admin targets a uid that is not a representative |
| UserService.UpdateRepresentativeGuard | msa/user_service/src/graphql.js:220-226 | the same decision, with the denial message in every failing case |
| UserService.UpdateGuardsDiffer | msa/user_service/src/graphql.js:220-226 | the two guards agree on passing, and differ exactly in the missing-target case |
| UserService.UpdateStudentAsRepresentativeAdmin | msa/user_service/src/graphql.js:222-223 | a representative admin updating a student's uid gets the TypeError as written and the denial when corrected |
| UserService.UpdateRepresentativeCheck | msa/user_service/src/graphql.js:220-238 | the update passes iff the guard passes, the enid is only changed by an admin, and a password is only set for oneself; the checks apply in that order |
| UserService.PatchRepresentative | msa/user_service/src/graphql.js:232-240 | every supplied field replaces the stored one and every omitted one is kept; a truthy password is stored hashed; an empty patch changes nothing |
| UserService.SelfMayGrantRepAdmin | msa/user_service/src/graphql.js:220-240 | a representative who is not a representative admin may set `repAdmin` on their own account |
| UserService.DeleteUserCheck | msa/user_service/src/graphql.js:323-334 | deletion is allowed iff admin, self, or representative admin of the target representative's entity; without a representative target only admin or self |
| UserService.PatchStudent | msa/user_service/src/graphql.js:264 | the supplied contact fields and websites replace the stored ones; the id, password, student number, studies and share list are kept |
| UserService.Reshare | msa/user_service/src/graphql.js:304-311 | sharing appends the enid; unsharing removes every copy of it |
| UserService.ReshareCounts | msa/user_service/src/graphql.js:304-311 | sharing adds one occurrence, unsharing leaves none, other entities' occurrences are untouched, and sharing keeps the old list as a prefix |
| UserService.ShareThenUnshare | msa/user_service/src/graphql.js:304-311 | unsharing after sharing is the same as unsharing alone |
| UserService.WithShare | msa/user_service/src/graphql.js:311 | only the student's share list changes |
| UserService.WithoutRepresentativesOf | msa/user_service/src/graphql.js:349 | exactly the users who are not representatives of the entity remain |
| UserService.WhereUnique | msa/user_service/src/graphql.js:349 | a bulk delete keeps document ids unique |
| UserService.AccountMail | msa/user_service/src/graphql.js:182-196 | the mail goes to the new account's email and its text ends with the plain password and a newline |
| UserService.NewRepresentativeUser | msa/user_service/src/graphql.js:198 | the created document is a non-admin representative of the given entity with the hashed password, `repAdmin` only when true was given, and it signs `r` claims with that enid |
| UserService.UserDb.constructor | msa/user_service/src/graphql.js:10 | the collection starts with the given unique-id users and no CV files |
| UserService.UserDb.CreateRepresentative | msa/user_service/src/graphql.js:170-199 | a denied caller changes nothing; an allowed one gets a new representative appended, with the hash of a password drawn from the alphabet, and a mail carrying that password |
| UserService.UserDb.UpdateRepresentative | msa/user_service/src/graphql.js:216-241 | a failing check leaves the users unchanged with its message; a missing representative gives null; otherwise exactly that representative is replaced by its patch |
| UserService.UserDb.UpdateStudent | msa/user_service/src/graphql.js:256-265 | only an admin or the student may update; a missing student gives null; otherwise exactly that student is patched |
| UserService.UserDb.UploadCV | msa/user_service/src/graphql.js:276-287 | an invalid uid and a caller who is not admin or the student are refused; otherwise `./data/<uid>` holds the file and the result is true |
| UserService.UserDb.ShareInfo | msa/user_service/src/graphql.js:299-312 | only an admin or the student may act; exactly that student's share list is pushed or pulled |
| UserService.UserDb.Delete | msa/user_service/src/graphql.js:322-337 | a failing check changes nothing; otherwise the returned user had that uid, is the only one removed, and no user with the uid remains |
| UserService.UserDb.DeleteOfEntity | msa/user_service/src/graphql.js:344-351 | only an admin may act; every representative of the entity is removed and every other user kept |
| EventService.ExistenceCheck | msa/event_service/src/graphql.js:9-22 | a failed reply fails with the generic message; otherwise it passes iff every enid is among the returned ones, and a failure names the first missing enid |
| EventService.CheckEntitiesExist | msa/event_service/src/graphql.js:9-22 | the loop's outcome is `ExistenceCheck` |
| EventService.ExistenceCheckSplit | msa/event_service/src/graphql.js:17-21 | if a concatenation of enid lists passes, each part passes |
| EventService.EventById | msa/event_service/src/graphql.js:36-41 | a missing event gives null without a permission check; a found one is an event with that id; the call fails iff the event exists and the permission check fails |
| EventService.EventsFilter | msa/event_service/src/graphql.js:55-63 | only enabled events unless `all` is true; representatives with an entity are limited to events listing it |
| EventService.Matches | msa/event_service/src/graphql.js:55-65 | an empty filter matches every event; an enabled-only filter matches only enabled events; an entity filter only events listing the entity |
| EventService.Events | msa/event_service/src/graphql.js:52-66 | after the permission check, the result is exactly the stored events that match the filter |
| EventService.EventsVisibility | msa/event_service/src/graphql.js:55-65 | a representative only sees events of their entity; without `all` only enabled events are seen; a non-representative asking for all sees every event |
| EventService.PatchEvent | msa/event_service/src/graphql.js:121-123 | supplied fields replace the stored ones, omitted ones are kept, and the id never changes |
| EventService.PatchEventTwice | msa/event_service/src/graphql.js:121-123 | two successive patches equal one patch whose later fields win |
| EventService.EntitiesCheck | msa/event_service/src/graphql.js:90-92 | the existence check runs whenever an entities list is supplied, even an empty one |
| EventService.WithEntity | msa/event_service/src/graphql.js:166 | `$push` appends the enid; `$pull` removes all its copies; nothing else in the event changes |
| EventService.WithoutEntityKeepsOthers | msa/event_service/src/graphql.js:183 | removing an entity leaves every other entity's occurrences as they were |
| EventService.EventDb.constructor | msa/event_service/src/graphql.js:6 | the collection holds the given events |
| EventService.EventDb.Create | msa/event_service/src/graphql.js:85-95 | non-admins are refused; a failing existence check refuses with its message; otherwise the new event is appended |
| EventService.EventDb.Update | msa/event_service/src/graphql.js:112-124 | non-admins and failing checks change nothing; a missing event gives null; otherwise exactly that event is patched |
| EventService.EventDb.Delete | msa/event_service/src/graphql.js:134-140 | non-admins are refused; otherwise the first event with the id is removed and returned, or null |
| EventService.EventDb.AddEntity | msa/event_service/src/graphql.js:152-167 | non-admins, a failed lookup and an unknown entity are refused in that order; otherwise the enid is pushed onto exactly that event |
| EventService.EventDb.DelEntity | msa/event_service/src/graphql.js:178-184 | non-admins are refused; otherwise the enid is pulled from exactly that event |
| VoteService.VotesOfStudent | alterations/cqrs/msa/vote_service/src/graphql.js:23-26 | after the permission check, the result is null iff the student has no record for the event, else the projects of that record's votes |
| VoteService.RecordPairsMembers | alterations/cqrs/msa/vote_service/src/graphql.js:45-49 | one pair per vote for the entity; a pair is produced iff the student voted for that project of the entity |
| VoteService.EntityPairsMembers | alterations/cqrs/msa/vote_service/src/graphql.js:44-50 | the pairs are exactly the (student, project) votes for the entity, one per matching vote |
| VoteService.PrefilterIrrelevant | alterations/cqrs/msa/vote_service/src/graphql.js:40-49 | the `votes.enid` prefilter of the query does not change what the loop yields |
| VoteService.VotesOfEntity | alterations/cqrs/msa/vote_service/src/graphql.js:37-53 | after the permission check, the nested loops yield the reference pairs of the event's records |
| VoteService.ProjectQueryFor | alterations/cqrs/msa/vote_service/src/graphql.js:67-72 | admins query by project, representatives by project and their own entity, everyone else the whole event |
| VoteService.Selects | alterations/cqrs/msa/vote_service/src/graphql.js:67-72 | the whole-event query selects every record; a project query only records with a vote for that project, so a record without votes only under the whole-event query |
| VoteService.VotesOfProject | alterations/cqrs/msa/vote_service/src/graphql.js:64-75 | after the permission check, the result lists every selected student of the event and only those |
| VoteService.RepresentativeSeesLess | alterations/cqrs/msa/vote_service/src/graphql.js:68-72 | every student a representative sees for a project, an admin sees too |
| VoteService.AdminSeesLessThanOthers | alterations/cqrs/msa/vote_service/src/graphql.js:67-72 | a caller who is neither admin nor representative sees every student an admin sees |
| EntityService.EntityById | entity_service/src/graphql.js:19 | the entity found has the id; none is found iff no entity has it |
| EntityService.EntitiesById | entity_service/src/graphql.js:26 | the entities whose id is listed, and only those |
| EntityService.UpdateCheck | entity_service/src/graphql.js:62-64 | an update is allowed iff admin or representative of that entity; students never |
| EntityService.PatchEntity | entity_service/src/graphql.js:66 | supplied fields replace stored ones, omitted ones are kept, the id never changes |
| EntityService.LinkedProjectsCheck | entity_service/src/graphql.js:79-82 | the delete goes on iff the project service answered `deleteOfEntity` with true |
| EntityService.HasExternalIdCheck | entity_service/src/graphql.js:104-106 | the lookup finds a document iff some stored entity has the external id |
| EntityService.ImportOne | entity_service/src/graphql.js:103-116 | a record is skipped iff its external id is already stored, else a company with its name and external id is created |
| EntityService.ImportResults | entity_service/src/graphql.js:101-119 | one result per record, each judged against the entities stored before the import |
| EntityService.CreatedFresh | entity_service/src/graphql.js:104-116 | every created entity is a company with an external id that was not stored before |
| EntityService.ImportTwice | entity_service/src/graphql.js:92-122 | importing the same file again creates nothing |
| EntityService.EntityDb.constructor | entity_service/src/graphql.js:7 | the collection holds the given entities |
| EntityService.EntityDb.Create | entity_service/src/graphql.js:40-46 | non-admins are refused; otherwise the new entity is appended |
| EntityService.EntityDb.Update | entity_service/src/graphql.js:58-67 | a refused caller changes nothing; a missing entity gives null; otherwise exactly that entity is patched |
| EntityService.EntityDb.Delete | entity_service/src/graphql.js:74-86 | non-admins and a failed linked-projects delete change nothing; otherwise the entity is removed and returned, or null |
| EntityService.EntityDb.Import | entity_service/src/graphql.js:92-122 | non-admins and parse errors change nothing; otherwise one result per record and exactly the created entities are appended |
| Common.Override | msa/event_service/src/graphql.js:123 | a field after `$set`: the supplied argument if any, else the stored value |
| Common.OverrideOpt | msa/event_service/src/graphql.js:123 | the same for a field that may be absent: a supplied argument replaces it, an omitted one keeps it, absent or not |
| Lists.Pull | msa/event_service/src/graphql.js:183 | `$pull` leaves no copy of the value and removes exactly its occurrences |
| Lists.PullKeepsOthers | msa/user_service/src/graphql.js:308 | `$pull` keeps every other value's occurrences |
| Lists.PullAfterPush | msa/user_service/src/graphql.js:304-311 | pulling after pushing a value is the same as pulling it alone |
| Lists.SplitCount | userStories/src/api.js:32-33 | `split` gives one more part than there are separators |
| Lists.JoinSplit | userStories/src/api.js:32 | joining the parts of a split with the separator gives the text back |
| Store.IndexOf | msa/event_service/src/graphql.js:123 | `findById` finds the first document with the key, or none iff no document has it |
| Store.Where | msa/event_service/src/graphql.js:65 | `find` keeps exactly the documents that match |
| Store.RemoveAt | msa/event_service/src/graphql.js:139 | `findByIdAndDelete` removes that one document and keeps the others in order |

## Left out

- Inter-service messaging (amqp `rgraphql`): replies enter as `Reply` values. Timeouts, retries and message formats are not modelled.
- Mongoose casting, schema validation, unique and enum constraints and defaults. Ids are compared as text. The event schema is not part of this model, so `enabled` is optional.
- Explicit `null` arguments to `$set` are not modelled. An argument is either supplied or omitted.
- bcrypt, `jwt.sign`, `jwt.verify`, nodemailer and `crypto.randomInt` are parameters. For them:
  - `apiToken` returns the claims that would be signed, not the signed text;
  - signing errors and mail transport errors are not modelled.
- ApiClient.UnpackToken: its base64 and JSON decoding are not modelled; it keeps the middle part of the token as its payload. So a three-part token whose middle part is not base64-encoded JSON, on which `JSON.parse` throws, unpacks in the model, and ApiClient.Client.Create and ApiClient.Client.Login succeed where the code throws.
- UserService.UserDb.UploadCV: `writeFile` always succeeds in the model. A rejected write, which makes the call fail in the code, is not modelled; the model stores the file and returns true.
- `GraphQLBuilder` and the per-resource API wrappers of `api.js` are not part of this model. `mainCli.js`, the gateway's login route and index, the project service and the frontend are not part of it either.
- NodeCache expiry and lookups, and the interceptors' clock. Start time and duration come with the HTTP outcome.
- `user`, `users` and the CV queries. Their decisions live in `permissions.js`, which is not part of this model. The permission checks of `event`, `events` and the vote queries enter as an `Outcome`.
- EntityService.EntityDb.Import: the records are looked up and created concurrently (`Promise.all`). The model judges every record against the entities stored before the import and creates them in record order. So two rows of one file with the same new external id are both created, and the interleaving of lookups with creations is not modelled.
- Import CSV parsing: `CsvRecord` carries a parsed integer id. The text-to-number cast and rows missing a column are not modelled.
- A representative token without an `enid`, used in `events` (`$in`) or `votesOfProject` (`$elemMatch`), is not modelled.
- The `if (!votes)` branch of `votesOfEntity` is unreachable, since `find` returns an array, so it is left out.
- The key order of `Object.keys` and `for…in` follows insertion order. JavaScript's integer-like-key rule is not modelled.
- The synchronous throw of `JSON.parse` in the gateway is reported as `threw`. Express's handling of it is not modelled.
- Dates are text.
- UserService.UserDb.UpdateRepresentative: it uses the corrected guard (see Findings), not the TypeError path of the code as written.
- No uniqueness of event or entity ids is assumed. Lookups use the first document with the id, as `findById` would on the unique `_id`.

## Findings

| source | as written | input that shows it | evidently intended | confidence | as-written member | corrected member |
|---|---|---|---|---|---|---|
| msa/user_service/src/graphql.js:222-223 | the representative-admin branch reads `.enid` of `Representative.findById(uid)` without checking for null, so a representative admin who targets a uid that is not a representative gets the TypeError "Cannot read properties of null (reading 'enid')" instead of the authorisation error | caller claims uid `rep`, type `r`, enid `e1`, repAdmin true; target uid `student`, which is not a representative | refuse with "UNAUTHORIZED update representative", as `checkEnid` in `user.delete` (lines 323-328) does for a missing representative | medium, not executed | UserService.UpdateRepresentativeGuardAsWritten (exhibited by UserService.UpdateStudentAsRepresentativeAdmin) | UserService.UpdateRepresentativeGuard (used by UserService.UpdateRepresentativeCheck and UserService.UserDb.UpdateRepresentative) |

A related behaviour that follows from the code as written, and is not claimed as a defect: any representative may set `repAdmin` on their own account, because the self branch of the guard admits them and no later check concerns `repAdmin` (UserService.SelfMayGrantRepAdmin).
