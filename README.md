# fire: a verified model of the JSON:API controller

This project models the core of **fire**, a Go framework that serves MongoDB
models over a JSON:API interface. At the centre is the `Controller` of
`controller.go`. It handles one request for one model and decides:

- which operation the request is (list, find, create, update, delete, the
  relationship reads and writes, the custom actions);
- which checks run first;
- how callbacks run (authorizers, validators, decorators, notifiers);
- how filters, sorters, sparse fieldsets and pagination are compiled into a
  store query;
- how submitted attributes and relationships are written into the model;
- how the optimistic tokens (idempotent create, consistent update) and soft
  deletion are kept;
- how has-one and has-many relationships are preloaded;
- how every model is rendered as a resource with links.

Around the controller, the project models the parts of the framework the
controller relies on or that ship with it:

- the storage manager of a collection (`coal/manager.go`);
- the stock validators and authorizers (`callbacks.go`);
- the access-control layer (`ash`: strategy, authorizer combinators and
  stock enforcers);
- token leases on named values (`glut/locks.go`);
- name-based field access (`stick/access.go`);
- the legacy model base (`base.go`);
- background tasks (`axe/task.go`);
- the Graphviz rendering of a model catalog (`coal/erd.go`);
- the OAuth2 authenticator's models and tools (`flame`, `auth`);
- the stream registry of a watcher (`spark/watcher.go`);
- the example item model.

The store is in memory: a collection is a sequence of documents with
distinct identifiers, in the store's natural order. A Go panic that the
framework turns into a JSON:API error becomes an `Err` carrying that error.
An internal error becomes an `Err` with status 500. The clock and the
generation of fresh identifiers come in as parameters. Iterating a Go map
has no fixed order. Most contracts hold for every order; the few members
that fix declaration order instead are named under "Left out".

Stateful parts are Dafny classes whose methods are proved equal to
specification functions; properties are proved about those functions:

- the controller and its request context;
- the manager;
- the lock store;
- the accessor cache;
- the legacy base;
- the background task;
- the watcher.

Pure parts are datatypes, functions and lemmas.

## Model

| member | source | states |
|---|---|---|
| ObjectIds.FromHex | controller.go:273 | an id is parsed exactly when the text is 24 hexadecimal digits, and the parsed id is in range |
| ObjectIds.FromHexOfHex | controller.go:1006 | parsing the hexadecimal form of an id gives back that id |
| ObjectIds.HexOfFromHex | controller.go:1006 | the hexadecimal form of a parsed id is the parsed text in lower case |
| ObjectIds.HexValueOfDigits | controller.go:1006 | the value of the w-digit form of n is n modulo 16^w |
| ObjectIds.DigitsOfValue | controller.go:1006 | the digits of the value of a hexadecimal text are that text in lower case |
| Documents.Set | coal/manager.go:488-523 | setting a field changes that field only and keeps the id and the lock counter |
| Documents.Filter | coal/manager.go:137-200 | the documents a query selects are exactly the stored documents that match it, in store order |
| Documents.FirstMatch | coal/manager.go:80-130 | the first match is a matching document with no match before it, and none is found only when nothing matches |
| Documents.IndexOf | coal/manager.go:40-70 | looking up an id finds the document with that id, and none is found only when no document has it |
| Documents.Window | coal/manager.go:175-183 | skip and limit keep a part of the list, at most `limit` long when a limit is set, and the whole list when neither is set |
| Documents.FilterUniqueIds | coal/manager.go:137-200 | a filtered collection keeps distinct ids |
| Documents.AsMap | coal/manager.go:40-70 | the map view of a collection holds exactly its ids, each mapped to its document |
| Fields.InitialFields | controller.go:1198-1238 | with no sparse fieldset for the type, every attribute and relationship is listed; otherwise the request fails exactly when a requested key is unknown (naming the first unknown key), and a field is listed exactly when it is a model field named by some requested key |
| Fields.ListNames | controller.go:1200-1211 | the collected list is the model's attribute names followed by its relationship names |
| Fields.ConvertKeys | controller.go:1216-1232 | the conversion fails exactly at the first unknown key, with the sparse field error; otherwise it yields the Go names of the requested keys, in request order |
| Fields.IntersectLists | controller.go:1235 | the intersection keeps, in order, the requested names that are also in the full list |
| Fields.ReadableNarrows | controller.go:1198-1238 | a name selected by a valid sparse fieldset is a field of the model |
| Fields.EveryFieldSelectable | controller.go:1218-1226 | every attribute can be selected by its JSON key, and every relationship by its name when no attribute has that key |
| ModelMeta.AttributeNamed | controller.go:1218 | looking up an attribute by its JSON key finds a field with that non-empty key, and none is found only when no field has it |
| ModelMeta.RelationshipNamed | controller.go:1224 | looking up a relationship by name finds a field with that non-empty relationship name, and none is found only when no field has it |
| ModelMeta.FieldNamed | controller.go:1412 | looking up a field by its Go name finds a field with that name, and none is found only when no field has it |
| ModelMeta.FieldStoredAt | controller.go:1596-1609 | looking up a storage key finds the field stored there, and none is found only for a key no field uses |
| ModelMeta.AttributeNamedUnique | controller.go:1218 | in a well-formed model every attribute is found by its own JSON key |
| ModelMeta.RelationshipNamedUnique | controller.go:1224 | in a well-formed model every relationship is found by its own name |
| ModelMeta.FieldNamedUnique | controller.go:1412 | in a well-formed model every field is found by its own Go name |
| ModelMeta.FieldStoredAtUnique | controller.go:1596-1609 | in a well-formed model every field is found by its own storage key |
| JsonApi.Self | controller.go:743-746 | the request's own path starts with a slash |
| JsonApi.ReplaceFirst | controller.go:853-860 | replacing the first occurrence of an empty string prepends the replacement, and a text without the pattern is left as it is |
| JsonApi.ReplaceFirstOfPrefix | controller.go:853-860 | a text that starts with the pattern has that start replaced |
| Handling.OperationOf | controller.go:277-297 | an intent is an action exactly for the two action intents, a write exactly for create, update, delete and the three relationship writes, an update exactly for update and the relationship writes, and a find exactly for find, related and relationship reads |
| Handling.SuccessCode | controller.go:397-694 | a successful create answers 201, a delete 204 and every other non-action operation 200 |
| Handling.ActionMethods | controller.go:163-203 | the parser learns the methods of exactly the configured actions |
| Handling.FlagCheck | controller.go:218-240 | a flag passes exactly when it is off, or its field exists and has the required type |
| Handling.FlagKeys | controller.go:218-240 | once the flags are checked, soft delete, idempotent create and consistent update each have a storage key exactly when enabled, and that key belongs to a field of the required type |
| Handling.SoftDeleteCond | controller.go:1252-1258 | with soft delete the loading condition selects exactly the documents whose deletion time is unset; without it, every document |
| Handling.LoadedMatches | controller.go:1246-1258 | a document the loading selector matches has the requested id and, with soft delete, no deletion time |
| Handling.FoundDocument | controller.go:1260-1281 | the model found by the loading query matches it, comes from the collection, and the lookup keeps the collection's ids |
| Handling.StampedDelete | controller.go:672-683 | a soft delete succeeds, keeps every id, and stamps the deleted document's deletion time |
| Handling.CheckedResource | controller.go:451-464 | the submitted resource is accepted exactly when there is one, its type is the requested type and its id is empty for a create and the requested id otherwise; each failure gives its own error |
| Handling.Tokened | controller.go:479-483 | storing a token keeps the id, makes the token read back, and changes no other field |
| Handling.TokenOf | controller.go:573-579 | the token of a model is the value of its token field, or empty when the mechanism is off |
| Handling.ChildRequest | controller.go:740-746 | the request for a related listing lists the related type, without id or related name, keeping prefix, fields, filters, sorting and page |
| Handling.RelatedSelector | controller.go:748-843 | a to-one relationship selects its stored target, a to-many its stored ids, a has-one and a has-many the documents whose inverse refers to the model |
| Handling.HasManySelects | controller.go:829-843 | a has-many listing selects exactly the documents whose inverse field refers to the model |
| Handling.ToManySelects | controller.go:786-797 | a to-many listing selects exactly the documents whose ids the model stores |
| Handling.Collapse | controller.go:772-783 | a listing collapses to one resource, to null when empty, and fails with the given error when it holds more than one |
| Handling.RelatedLinks | controller.go:853-860 | rewriting the links of a related listing gives the pagination links of the parent's own path |
| Handling.ReplaceInPageLink | controller.go:853-860 | rewriting a page link replaces its path and keeps its page parameters |
| Handling.ResourceFor | controller.go:1680-1689 | a rendered resource carries the model's type and the hexadecimal form of its id; a failure is an internal error |
| Handling.RelationshipResponse | controller.go:888-900 | the relationship response is the preloaded relationship data of the loaded model with the relationship's links |
| Handling.Edited | controller.go:1011-1021 | an edit of a to-many field stores exactly the new ids, or leaves the model as it is when they are unchanged, and keeps its id |
| ListQuery.ParseIds | controller.go:1325-1332 | a list of ids parses exactly when every entry is hexadecimal, and entry i parses to id i |
| ListQuery.ConvertIds | controller.go:1325-1332 | the loop that converts filter values yields exactly the parsed ids, or fails on the first invalid one |
| ListQuery.CompileFilter | controller.go:1299-1341 | an attribute filter compiles exactly when its field is allowed; otherwise a relationship filter compiles exactly when its relationship is stored, allowed and every value is a hex object id; an allowed stored relationship with a non-hex value fails with "relationship filter value is not an object id"; every other failure is the 400 "invalid filter" error |
| ListQuery.CompileOne | controller.go:1299-1341 | the loop body that compiles one filter computes the filter's condition or its error |
| ListQuery.CompileFilters | controller.go:1298-1341 | the filters compile exactly when each one does, one condition per filter and no other; a failure is the error of some filter |
| ListQuery.StringFilterSemantics | controller.go:1311-1315 | an allowed non-boolean attribute filter selects exactly the documents whose field matches one of the values |
| ListQuery.RelationshipFilterSemantics | controller.go:1318-1337 | an allowed filter on a stored relationship whose values are all hex selects exactly the documents whose field refers to one of the parsed identifiers |
| ListQuery.BoolFilterSemantics | controller.go:1305-1310 | an allowed boolean attribute filter with one value selects exactly the documents whose field equals that value read as "true" |
| ListQuery.SortKey | controller.go:1344-1367 | a sorter is accepted exactly when it names an allowed attribute, with or without a leading minus; otherwise it fails with status 400 |
| ListQuery.DescendingSortKey | controller.go:1346-1367 | a descending sorter is accepted exactly when the ascending one is, and its key is the ascending key with a leading minus |
| ListQuery.CompileSorters | controller.go:1344-1367 | the sorters compile exactly when each one does, each to its key in order; a failure is the error of the first bad sorter |
| ListQuery.ClampPage | controller.go:1369-1378 | with a list limit, a missing or larger page size becomes the limit and a missing page number becomes 1; the size then lies between 1 and the limit |
| ListQuery.SkipLimit | controller.go:1383-1388 | page n of size k skips (n-1)*k documents and takes k; without a full page nothing is skipped or limited |
| ListQuery.PageWindow | controller.go:1383-1388 | page n of size k holds exactly the entries from (n-1)*k up to n*k |
| ListQuery.PagesAdjacent | controller.go:1383-1388 | each page starts where the previous one ends |
| ListQuery.DigitsRoundTrip | controller.go:1914-1916 | the decimal digits printed into a page link read back as the number |
| ListQuery.LastPage | controller.go:1911-1912 | the last page is the smallest page count whose pages hold every counted document |
| ListQuery.ListLinks | controller.go:1895-1931 | with a full page, the self, first and last links name their pages, a previous link exists exactly after page 1 and a next link exactly before the last page; otherwise only the self link is set |
| ListQuery.NextIffMoreDocuments | controller.go:1923-1926 | a next link is given exactly when documents remain after the current page |
| Tokens.StoreAbort | controller.go:500-503 | a duplicate key becomes a 409 conflict, any other store error an internal error |
| Tokens.CreateStore | controller.go:485-516 | a failed create answers 400, 409 or 500 |
| Tokens.CreateNeedsToken | controller.go:491-494 | with idempotent create, a model without a token is refused |
| Tokens.CreateAppends | controller.go:485-516 | a successful create appends the model under a new id and keeps its idempotent create token |
| Tokens.CreateTwiceConflicts | controller.go:505-508 | a second create with the same idempotent create token is refused as a conflict |
| Tokens.UpdateStore | controller.go:596-631 | a failed update answers 400, 409 or 500 |
| Tokens.UpdateChecksToken | controller.go:603-607 | with consistent update, a token that differs from the stored one is refused |
| Tokens.UpdateCompareAndSwap | controller.go:609-627 | with consistent update, the model is replaced with a fresh token exactly when the stored document still holds the submitted token; otherwise the update fails as a conflict |
| Tokens.PlainUpdateReplaces | controller.go:624-630 | without consistent update, the stored document with the model's id is replaced by the model |
| Tokens.UpdateKeepsIds | controller.go:596-631 | an update keeps the set of stored ids |
| Assign.Whitelist | controller.go:1406-1423 | the whitelist is built exactly when every writable name is a model field, and it holds the JSON keys of those fields' attributes and relationships; an unknown name is an internal error |
| Assign.BuildWhitelist | controller.go:1406-1423 | the loop that builds the whitelist computes exactly the whitelist or its error |
| Assign.ParseRefs | controller.go:1530-1544 | a list of references parses exactly when each has the related type and a hexadecimal id, giving the ids in order; a failure answers 400 |
| Assign.ConvertRefs | controller.go:1524-1545 | the loop that converts to-many references computes exactly the parsed ids or the first rejection |
| Assign.RelValue | controller.go:1485-1549 | the value a relationship document stores, or a 400 error for a bad reference |
| Assign.OptionalToOneNull | controller.go:1508-1515 | an optional to-one relationship given no reference or the zero id is stored as null |
| Assign.RequiredToOneZero | controller.go:1486-1509 | a required to-one relationship given no reference is stored as the zero id |
| Assign.AssignRelationship | controller.go:1480-1550 | a stored relationship is set to the value of its document or fails with that value's error; any other relationship leaves the model unchanged |
| Assign.CheckAttributes | controller.go:1425-1449 | the attributes pass exactly when none is unknown, and none is non-writable unless violations are tolerated; a failure is the error of some attribute; the accepted map keeps exactly the writable submitted attributes |
| Assign.VisitRelationship | controller.go:1455-1477 | one relationship fails exactly when it is unknown, or not writable and violations are not tolerated, or its document is rejected; otherwise it is assigned or skipped |
| Assign.AssignRelationships | controller.go:1454-1477 | the relationships pass exactly when none is rejected, and then every writable stored relationship holds its submitted value, whatever the visiting order |
| Assign.AssignInOrderIsPatch | controller.go:1455-1477 | assigning the relationships one by one in any order gives the same model as applying all their values at once |
| Assign.AssignData | controller.go:1401-1478 | a bad whitelist fails as it does; otherwise the data is accepted exactly when its attributes and relationships are, a failure is one of their errors, and the result is the model with the accepted attributes and relationships assigned |
| Assign.UnknownAttributeRejected | controller.go:1429-1433 | an attribute the model does not have is rejected as invalid |
| Assign.NonWritableAttribute | controller.go:1435-1445 | a known attribute outside the whitelist passes exactly when violations are tolerated, and is then not written |
| Assign.NonWritableRelationship | controller.go:1463-1473 | a relationship outside the whitelist, or a has-one or has-many relationship, passes exactly when violations are tolerated, and is then not written |
| Assign.AssignedAttribute | controller.go:1447-1452 | a writable submitted attribute is stored in its field, and every other attribute field is unchanged |
| Assign.AssignedRelationship | controller.go:1475-1476 | a writable submitted relationship is stored in its field, and a relationship not submitted is unchanged |
| Assign.AssignedOtherFields | controller.go:1401-1478 | assigning data leaves the id, the lock and every storage key that belongs to no field unchanged |
| Assign.AssignIdempotent | controller.go:1401-1478 | assigning the same data twice gives the same model as assigning it once |
| ToMany.RefId | controller.go:999-1009 | a reference yields an id exactly when it has the related type and a hexadecimal id, and the id is the parsed one |
| ToMany.AddOnce | controller.go:1011-1021 | adding an id keeps the list as a prefix, contains the id, and adds nothing else |
| ToMany.Append | controller.go:999-1022 | appending references keeps the stored ids as a prefix |
| ToMany.LastIndex | controller.go:1095-1106 | the position found is the last occurrence of the id, or -1 exactly when the id is absent |
| ToMany.AppendToMany | controller.go:999-1022 | the loop over submitted references computes exactly the appended list or its error |
| ToMany.RemoveFromMany | controller.go:1083-1113 | the loop over submitted references computes exactly the list with one occurrence of each id removed, or its error |
| ToMany.FindLast | controller.go:1095-1106 | the scan for an id finds its last position |
| ToMany.AppendFailsOnFirstRejected | controller.go:999-1009 | appending fails exactly when some reference is rejected, with the first rejection's error |
| ToMany.RemoveFailsOnFirstRejected | controller.go:1083-1093 | removing fails exactly when some reference is rejected, with the first rejection's error |
| ToMany.AppendContents | controller.go:999-1022 | after appending, the list holds exactly the stored ids and the submitted ones |
| ToMany.AppendKeepsDistinct | controller.go:1014-1017 | appending to a list without duplicates gives a list without duplicates |
| ToMany.AppendIdempotent | controller.go:1014-1017 | appending the same references twice gives the same list as appending them once |
| ToMany.AppendPresentNoop | controller.go:1014-1017 | appending ids that are all present leaves the list unchanged |
| ToMany.RemoveAbsent | controller.go:1108-1112 | removing an absent id leaves the list unchanged |
| ToMany.RemoveOneOccurrence | controller.go:1108-1112 | removing a present id takes exactly one occurrence out of the list |
| ToMany.RemoveKeepsEarlier | controller.go:1108-1112 | removal keeps every entry before the last occurrence in place and takes the last occurrence out |
| ToMany.RemoveUndoesAppend | controller.go:1011-1112 | removing an id that was just added to a list without it restores the list |
| Render.ReferrersExact | controller.go:1643-1671 | the referrers collected for an owner are exactly the loaded documents that refer to it |
| Render.EntryExact | controller.go:1640-1671 | the preloaded entry holds an owner exactly when some loaded document refers to it, mapped to its referrers |
| Render.ReferrerFound | controller.go:1601-1622 | a document referring to one of the owners is loaded exactly when it is not soft deleted |
| Render.RelEntry | controller.go:1589-1674 | a has-one or has-many relationship preloads exactly when its related controller and inverse relationship exist; otherwise it is an internal error |
| Render.PreloadedReferrers | controller.go:1589-1674 | an id is preloaded for an owner exactly when a related document that is not soft deleted refers to that owner through the inverse relationship |
| Render.RelNames | controller.go:1563-1575 | the readable names map to relationships exactly when all are model fields, and yield exactly the relationship names among them; an unknown name is an internal error |
| Render.PreloadFieldsEntry | controller.go:1577-1674 | each preloaded relationship maps to its own entry |
| Render.PreloadCovers | controller.go:1577-1588 | every readable has-one and has-many relationship of the model is preloaded, with its own entry |
| Render.ReadableRelationships | controller.go:1563-1575 | the loop over readable fields computes exactly the readable relationship names or their error |
| Render.CollectIds | controller.go:1601-1605 | the ids collected are the models' ids in order |
| Render.AddManyHits | controller.go:1657-1669 | a to-many inverse adds the document once for each time it refers to the owner |
| Render.AddIdHits | controller.go:1659-1668 | the loop over a to-many field adds one hit for the document per occurrence of the owner, and none for the zero id |
| Render.AddReferrers | controller.go:1646-1670 | the scan over loaded documents adds exactly the owner's referrers |
| Render.CollectEntry | controller.go:1640-1671 | the nested loops build exactly the preloaded entry |
| Render.PreloadRelationship | controller.go:1589-1674 | preloading one relationship computes exactly its entry or its error |
| Render.PreloadRelationships | controller.go:1552-1678 | preloading computes exactly the preloaded relationships of the readable has-one and has-many fields, or the first error |
| Render.RelLinks | controller.go:1742-1759 | the links of a relationship are its self and related links under the resource's base link, without pagination links |
| Render.RelData | controller.go:1761-1889 | to-one and has-one relationships render one reference, to-many and has-many a list; rendering fails exactly for a has-one relationship with more than one preloaded reference |
| Render.RelDocsKeys | controller.go:1748-1753 | a resource holds exactly the relationships that are readable |
| Render.RelDocsEntry | controller.go:1748-1889 | each readable relationship holds its data and its links |
| Render.Construct | controller.go:1708-1893 | a constructed resource carries the model's type and the hexadecimal form of its id; a failure is an internal error |
| Render.RenderedAttribute | controller.go:1714-1740 | an attribute is rendered exactly when it is readable, with its stored value |
| Render.RenderedRelationship | controller.go:1748-1889 | every readable relationship is rendered with its data and links |
| Render.UnpreloadedRelationship | controller.go:1813-1866 | without preloaded data, a has-one relationship renders null and a has-many relationship an empty list |
| Render.HasOneOverflowAborts | controller.go:1828-1834 | a has-one relationship with more than one preloaded reference makes rendering fail |
| Render.RendersWithoutPreload | controller.go:1708-1893 | with a valid readable list, rendering without preloaded data always succeeds |
| Render.PreloadedHasMany | controller.go:1866-1889 | a rendered has-many relationship lists exactly the related documents that are not soft deleted and refer to the model |
| Render.PreloadedRefsExact | controller.go:1601-1622 | for distinct loaded models, the preloaded list of a model names exactly the related documents that are not soft deleted and refer to it, whatever the position of the model in the list |
| Render.ResourcesForModels | controller.go:1691-1706 | the models render one resource each, in order, or the request fails with some model's error |
| Callbacks.AbortFor | controller.go:1950-1959 | a safe failure is reported with the step's status and its message; an error with its own status is passed on unchanged; any other failure is an internal error |
| Callbacks.Run | controller.go:1933-1961 | running callbacks keeps the context except that filters are only added and the model may be replaced; when no callback returns an error with its own status, a failure has the step's status or 500 |
| Callbacks.RunCallbacks | controller.go:1933-1961 | the loop over callbacks computes exactly the run |
| Callbacks.RunAction | controller.go:1963-1978 | an action succeeds exactly when its handler does, and a failure is reported as for callbacks |
| Callbacks.RunConcat | controller.go:1933-1961 | running two lists in a row is running their concatenation |
| Callbacks.RunStopsAtFailure | controller.go:1944-1960 | once a callback fails, later callbacks do not run |
| Callbacks.RunIgnoresUnmatched | controller.go:1944-1948 | callbacks whose matcher declines leave the context as it is |
| Callbacks.SafeFailureCarriesStatus | controller.go:1950-1956 | a matching callback that fails safely aborts with the step's status and its message |
| Callbacks.OwnStatusPassesThrough | controller.go:1950-1958 | a matching callback that fails with an error of its own status aborts with that error unchanged, whatever the step |
| Controllers.RelatedOf | controller.go:1589-1593 | the controllers a request can reach by type are exactly the group's controllers whose collections are known, and the controller's own type sees its own collection |
| Controllers.ListedIds | controller.go:1691-1706 | a listing holds one resource per model, in order, each with the model's type and id |
| Controllers.WindowMatches | controller.go:1284-1399 | every listed document is stored and matches the controller's selector |
| Controllers.Context.constructor | controller.go:306-316 | a new request context holds the request and body, no model, no filters and no response |
| Controllers.Controller.constructor | controller.go:28-146 | a new controller keeps its configuration and has no action methods yet |
| Controllers.Controller.Prepare | controller.go:148-241 | preparing fails exactly when the controller is not ready: it names an invalid collection action first, then an invalid resource action, then a flag whose field is missing or mistyped; a missing support check becomes one that accepts everything |
| Controllers.Controller.CollectionMethods | controller.go:163-182 | collection actions are accepted exactly when none is named empty or like an id; then the parser learns every action's methods |
| Controllers.Controller.ResourceMethods | controller.go:184-203 | resource actions are accepted exactly when none is named empty, "relationships" or like a relationship; then the parser learns every action's methods |
| Controllers.Controller.RunCallbacks | controller.go:1933-1961 | running callbacks on the context fails without changing it, or keeps the callbacks' filters and model |
| Controllers.Controller.RunAction | controller.go:1963-1978 | running an action on the context fails without changing it, or keeps the action's filters and model |
| Controllers.Controller.Begin | controller.go:243-316 | a malformed resource id is refused first, then an unsupported operation; on success the operation is the intent's, the selector is the given one, there are no filters, the readable fields are the requested ones and every field is writable |
| Controllers.Controller.SetFields | controller.go:315-316 | the readable fields are the requested fieldset and every field is writable; it fails exactly when the fieldset names an unknown field |
| Controllers.Controller.Authorize | controller.go:1260-1261 | the authorizers run on the extended selector; a failure changes nothing else, a success keeps their filters and model |
| Controllers.Controller.FindModel | controller.go:1260-1281 | a model that matches the query is found, or NotFound when none does; only a write locks it, and an update keeps it as the original |
| Controllers.Controller.LoadModel | controller.go:1240-1282 | the selector gets the id and the soft delete condition, the authorizers run, and the loaded model has the requested id, is not soft deleted and matches the query; a not-found answer means nothing matched unless an authorizer can return an error with its own status |
| Controllers.Controller.AddQuery | controller.go:1298-1378 | every filter and sorter must compile, each compiled filter joins the query, the sort keys follow in order, and the page is clamped to the list limit |
| Controllers.Controller.LoadModels | controller.go:1284-1399 | the listed models are the page window of the stored documents matching the selector, the soft delete condition and every filter |
| Controllers.Controller.ListLinks | controller.go:1895-1931 | the links of a listing are the pagination links for the count of matching documents, and without a full page the count is not needed |
| Controllers.Controller.ResourceForModel | controller.go:1680-1689 | a model is rendered as its resource |
| Controllers.Controller.ResourcesForListing | controller.go:387-389 | a listing preloads the relationships and renders every model, or fails with the preload's error |
| Controllers.Controller.Respond | controller.go:397-400 | the response and code are set, then the notifiers run |
| Controllers.Controller.Decorate | controller.go:418-419 | the decorators run on the model; without decorators nothing changes |
| Controllers.Controller.RespondOne | controller.go:418-436 | a single resource, or one of its relationships, is answered with status 200 and the rendered model |
| Controllers.Controller.ListResources | controller.go:369-401 | a listing answers 200 with the rendered page window of the matching documents and the pagination links |
| Controllers.Controller.RespondMany | controller.go:383-400 | the listed models are decorated, rendered and answered with the pagination links |
| Controllers.Controller.FindResource | controller.go:403-437 | finding answers the stored, non-deleted model with the requested id, rendered |
| Controllers.Controller.AssignData | controller.go:1401-1478 | submitted data is assigned to the model exactly when it is accepted |
| Controllers.Controller.BuildModel | controller.go:469-483 | a new model gets the fresh id and the submitted data, then the validators run, and with consistent update it carries a fresh token |
| Controllers.Controller.CreateWrite | controller.go:485-516 | creating stores exactly what the create decision says and appends the model on success |
| Controllers.Controller.CreateResource | controller.go:439-534 | a checked resource is built, validated and appended to the store; the response is 201 with the rendered model and its link |
| Controllers.Controller.InsertModel | controller.go:466-516 | the authorizers, assignment, validators and insert run in order, and on success the model is appended |
| Controllers.Controller.Reassign | controller.go:563-594 | the loaded model is assigned the submitted data with its update token cleared; a changed idempotent create token is refused |
| Controllers.Controller.UpdateWrite | controller.go:596-631 | updating stores exactly what the update decision says |
| Controllers.Controller.UpdateResource | controller.go:536-652 | a checked resource is loaded, assigned, validated and written back under the update decision; ids are kept and the response is the rendered model |
| Controllers.Controller.WriteBack | controller.go:563-651 | the loaded model is reassigned, written under the update decision, and answered |
| Controllers.Controller.Rewrite | controller.go:563-631 | the loaded model is reassigned and written under the update decision, keeping its idempotent create token |
| Controllers.Controller.DeleteWrite | controller.go:672-688 | without soft delete the store is exactly DeleteStep's, with the document removed; with it, the store is exactly UpdateStep's with the deletion time set, so only that document's deletion time changes and every id is kept |
| Controllers.Controller.DeleteResource | controller.go:654-695 | the model with the requested id is loaded (locked), and the new store is exactly the locked store with that document removed, or with its deletion time stamped under soft delete; the answer is 204 |
| Controllers.Controller.DeleteModel | controller.go:668-694 | after the validators the new store is exactly the old one with the model's document removed, or stamped with the deletion time under soft delete, and the status is 204 |
| Controllers.Controller.RespondRelationship | controller.go:950-964 | a relationship update is answered with the relationship of the rendered model |
| Controllers.Controller.GetRelationship | controller.go:863-904 | an unknown relationship is refused, an unreadable one fails, and otherwise the relationship of the loaded model is answered |
| Controllers.Controller.OpenRelationship | controller.go:918-935 | with consistent update, partial updates are refused; otherwise the relationship must exist, be of the right kind and writable, and the model is loaded |
| Controllers.Controller.SaveModel | controller.go:940-948 | the validators run and the model is replaced in the store |
| Controllers.Controller.Commit | controller.go:940-964 | the model is validated, replaced and answered with the relationship |
| Controllers.Controller.SetRelationship | controller.go:906-965 | a stored, writable relationship is set to the submitted value; the new store is exactly ReplaceStep of the submitted model over the store as loaded, with every id kept; the relationship is answered |
| Controllers.Controller.SubmittedRefs | controller.go:999 | the submitted references are the document's data, and a missing document or data is refused |
| Controllers.Controller.EditIds | controller.go:999-1022 | the model's to-many ids become the appended or removed list, or nothing changes on failure |
| Controllers.Controller.CommitIds | controller.go:1024-1048 | the edited ids are validated; the new store is exactly ReplaceStep of the submitted model; the relationship is answered |
| Controllers.Controller.AppendToRelationship | controller.go:967-1049 | a writable to-many relationship gets the submitted ids appended; the new store is exactly ReplaceStep of the submitted model over the store as loaded; the relationship is answered |
| Controllers.Controller.RemoveFromRelationship | controller.go:1051-1140 | a writable to-many relationship loses the submitted ids; the new store is exactly ReplaceStep of the submitted model over the store as loaded; the relationship is answered |
| Controllers.Controller.SubContext | controller.go:729-746 | the related listing runs in a new context with the child request, the given selector and no filters |
| Controllers.Controller.ListRelated | controller.go:729-847 | the related controller lists stored documents matching the selector, with the child request's pagination links |
| Controllers.Controller.Collapsed | controller.go:772-783 | a to-one or has-one listing collapses to one reference and fails when more than one document is listed |
| Controllers.Controller.RespondRelated | controller.go:697-861 | the related listing is answered with status 200 and the links rewritten to the parent's path |
| Controllers.Controller.GetRelatedResources | controller.go:697-861 | an unknown relationship is refused; otherwise the loaded model's related documents are listed by the relationship's selector |
| Controllers.Controller.OpenRelated | controller.go:709-727 | the related relationship must exist and be readable, and the model is loaded |
| Controllers.Controller.ListRelatedOf | controller.go:729-861 | the related documents are listed by the relationship's selector through the related controller |
| Controllers.Controller.HandleCollectionAction | controller.go:1142-1168 | a missing collection action is refused; otherwise the authorizers run and then the action |
| Controllers.Controller.HandleResourceAction | controller.go:1170-1196 | a missing resource action is refused; otherwise the model is loaded and the action runs on it |
| Controllers.Controller.RunOperation | controller.go:339-367 | each intent runs its handler; reads leave the store unchanged and a success answers the intent's code |
| Controllers.Controller.RunRead | controller.go:339-367 | the read handlers leave the store unchanged and answer 200 |
| Controllers.Controller.RunWrite | controller.go:339-367 | the create, update and delete handlers answer the intent's code |
| Controllers.Controller.RunRelationshipWrite | controller.go:339-367 | the relationship writes keep the stored ids and answer 200 |
| Controllers.Controller.Handle | controller.go:243-337 | a malformed id is refused; a failure leaves the store as it was; reads never change it; on success the operation is the intent's, it was supported, it ran in a transaction unless it is an action, and the code is the intent's |
| Controllers.Controller.Transact | controller.go:322-331 | a non-action runs in a transaction, and a failure rolls the store back |
| CoalManager.NthMatch | coal/manager.go:100-121 | the position of the match after `skip` matches exists exactly when enough documents match, and holds that match |
| CoalManager.EnsureId | coal/manager.go:344-361 | a document with the zero id gets the fresh id, and any other document keeps its own |
| CoalManager.MergeQueryKeepsIdentity | coal/manager.go:370-404 | merging the query's equalities into an inserted document keeps its id and lock |
| CoalManager.PatchMatchingKeepsIds | coal/manager.go:582-621 | patching every matching document keeps the ids distinct |
| CoalManager.WithoutKeepsIds | coal/manager.go:690-709 | deleting every matching document keeps the ids distinct |
| CoalManager.RemoveAtKeepsIds | coal/manager.go:668-683 | removing one document removes exactly its id |
| CoalManager.FindStep | coal/manager.go:40-70 | locking outside a transaction is refused; otherwise a document is found exactly when its id is stored, and it is the stored document; under a lock it is returned with its lock counter raised by one, and the store holds it so at its position; without a lock the store is unchanged |
| CoalManager.FindFirstStep | coal/manager.go:80-130 | locking outside a transaction is refused; otherwise a document is found exactly when more than `skip` documents match, and it is the match after `skip` earlier ones (locked when asked, and then stored locked in its place); without a lock the store is unchanged |
| CoalManager.FindFirstAsWritten | coal/manager.go:100-121 | the lookup as the source performs it finds a document exactly when any document matches, whatever the skip |
| CoalManager.FindFirstIgnoresSkip | coal/manager.go:100-121 | with two matching documents and a skip of 1, the lookup as written returns the first document where the skip asks for the second |
| CoalManager.FindAllStep | coal/manager.go:137-200 | outside a transaction it is refused, locking with skip or limit is refused, a read returns the page window of the matching documents, and a lock raises the lock counter of every match and returns the former matches, each locked, in store order |
| CoalManager.PatchedFilter | coal/manager.go:186-199 | raising the lock counters of the matches keeps the same documents matching: the matches afterwards are the former ones, each locked |
| CoalManager.LockedFindIsStored | coal/manager.go:56-62 | a locking find stores what it returns: reading the id again without a lock gives the same document, and the ids are unchanged |
| CoalManager.LockedFindAllIsStored | coal/manager.go:186-199 | a locking find of all returns exactly what an unlocked read of the new store selects |
| CoalManager.FindEachStep | coal/manager.go:207-275 | iterating yields exactly what finding all yields |
| CoalManager.CountStep | coal/manager.go:282-336 | outside a transaction it is refused, locking with skip or limit is refused, and the count is the size of the window of matches, locking them when asked |
| CoalManager.InsertStep | coal/manager.go:344-361 | an insert succeeds exactly when the id is new, appending the document; otherwise it is a duplicate key |
| CoalManager.OnInsert | coal/manager.go:393-397 | the document a `$setOnInsert` upsert inserts keeps the model's id and lock and every field the model sets; only fields the model does not set take the query's equalities |
| CoalManager.MergeQueryEquality | coal/manager.go:393-397 | a field the query fixes by equality is seeded with that value |
| CoalManager.MergeQueryUntouched | coal/manager.go:393-397 | a field no equality of the query names is not seeded |
| CoalManager.InsertIfMissingStep | coal/manager.go:370-404 | outside a transaction it is refused; when some document matches nothing is inserted and the result is false; otherwise the model, laid over the query's equalities, is appended unless its id is taken, and the result is true |
| CoalManager.InsertIfMissingStores | coal/manager.go:393-403 | an inserting call appends one document with the model's id; every field the model sets keeps the model's value even where the query names another, and a field only the query fixes takes the query's value |
| CoalManager.ReplaceStep | coal/manager.go:412-441 | a zero id is refused, locking outside a transaction is refused, the result says whether the id was stored, and the ids are kept |
| CoalManager.ReplaceFirstStep | coal/manager.go:451-480 | locking outside a transaction is refused; the first match is replaced exactly when one exists, and the replacement is refused when it would change that document's id |
| CoalManager.UpdateStep | coal/manager.go:488-523 | locking outside a transaction is refused; the document with the id is patched exactly when it is stored |
| CoalManager.UpdateFirstStep | coal/manager.go:533-572 | locking outside a transaction is refused; the first matching document is patched exactly when one exists |
| CoalManager.UpdateAllStep | coal/manager.go:582-621 | locking outside a transaction is refused; every matching document is patched and counted |
| CoalManager.UpsertStep | coal/manager.go:628-662 | outside a transaction it is refused; with a match the first match is patched and nothing is inserted; otherwise a new document built from the query and the patch is appended, or a duplicate key is refused |
| CoalManager.DeleteStep | coal/manager.go:668-683 | the result says whether the id was stored, and exactly that id is removed |
| CoalManager.DeleteAllStep | coal/manager.go:690-709 | exactly the matching documents are removed and counted; every other document is kept |
| CoalManager.DeleteFirstStep | coal/manager.go:716-734 | the first matching document is removed exactly when some document matches; otherwise the store is unchanged |
| CoalManager.Manager.constructor | coal/manager.go:40-70 | a manager starts over the given valid collection |
| CoalManager.Manager.Find | coal/manager.go:40-70 | the new store and result are exactly FindStep's |
| CoalManager.Manager.FindFirst | coal/manager.go:80-130 | the new store and result are exactly FindFirstStep's |
| CoalManager.Manager.FindAll | coal/manager.go:137-200 | the new store and result are exactly FindAllStep's |
| CoalManager.Manager.FindEach | coal/manager.go:207-275 | the new store and result are exactly FindEachStep's |
| CoalManager.Manager.Count | coal/manager.go:282-336 | the new store and result are exactly CountStep's |
| CoalManager.Manager.Insert | coal/manager.go:344-361 | the new store and result are exactly InsertStep's |
| CoalManager.Manager.InsertIfMissing | coal/manager.go:370-404 | the new store and result are exactly InsertIfMissingStep's |
| CoalManager.Manager.Replace | coal/manager.go:412-441 | the new store and result are exactly ReplaceStep's |
| CoalManager.Manager.ReplaceFirst | coal/manager.go:451-480 | the new store and result are exactly ReplaceFirstStep's |
| CoalManager.Manager.Update | coal/manager.go:488-523 | the new store and result are exactly UpdateStep's |
| CoalManager.Manager.UpdateFirst | coal/manager.go:533-572 | the new store and result are exactly UpdateFirstStep's |
| CoalManager.Manager.UpdateAll | coal/manager.go:582-621 | the new store and result are exactly UpdateAllStep's |
| CoalManager.Manager.Upsert | coal/manager.go:628-662 | the new store and result are exactly UpsertStep's |
| CoalManager.Manager.Delete | coal/manager.go:668-683 | the new store and result are exactly DeleteStep's |
| CoalManager.Manager.DeleteAll | coal/manager.go:690-709 | the new store and result are exactly DeleteAllStep's |
| CoalManager.Manager.DeleteFirst | coal/manager.go:716-734 | the new store and result are exactly DeleteFirstStep's |
| Locks.Deadline | glut/locks.go:34-37 | a value gets a deadline exactly when a time to live is given, that long after now |
| Locks.LockProblem | glut/locks.go:18-31 | a lock request is valid exactly when the token is set, the timeout is set and the time to live is either unset or not shorter than the timeout; a zero token is refused as invalid |
| Locks.LockStep | glut/locks.go:17-100 | an invalid request is refused; a missing value is created locked by the token; a value held by another live lease is left alone; otherwise the lease is taken or renewed; no other value changes |
| Locks.SetLockedStep | glut/locks.go:104-128 | a zero token is refused; only the holder of a live lease writes the data, and the result says whether it changed |
| Locks.GetLockedOf | glut/locks.go:132-150 | the data is read exactly when the token holds a live lease on the value |
| Locks.DelLockedStep | glut/locks.go:154-174 | a zero token is refused; the value is deleted exactly when the token holds a live lease on it |
| Locks.UnlockStep | glut/locks.go:178-209 | a zero token is refused; only the holder of a live lease releases it, and the value gets the new deadline |
| Locks.LockHolds | glut/locks.go:17-100 | a lease just taken is held by its token until its timeout |
| Locks.UnlockThenLock | glut/locks.go:178-209 | after an unlock, any valid lock request takes the value |
| Locks.SetThenGet | glut/locks.go:104-150 | the holder reads back the data it wrote |
| Locks.LeaseExcludes | glut/locks.go:54-66 | while one token holds a live lease, another token cannot take it and changes nothing |
| Locks.Store.constructor | glut/locks.go:17-100 | a new lock store holds no values |
| Locks.Store.Lock | glut/locks.go:17-100 | the new values and result are exactly LockStep's |
| Locks.Store.SetLocked | glut/locks.go:104-128 | the new values and result are exactly SetLockedStep's |
| Locks.Store.GetLocked | glut/locks.go:132-150 | the data read is exactly GetLockedOf's |
| Locks.Store.DelLocked | glut/locks.go:154-174 | the new values and result are exactly DelLockedStep's |
| Locks.Store.Unlock | glut/locks.go:178-209 | the new values and result are exactly UnlockStep's |
| Stick.AccessorFields | stick/access.go:62-96 | the accessor maps each field that is not ignored to its position and type, and holds no ignored name |
| Stick.BuiltExactly | stick/access.go:62-96 | with distinct field names, every field that is not ignored is found at its own position with its own type |
| Stick.BuildAccessor | stick/access.go:62-96 | the loop over struct fields builds exactly that accessor |
| Stick.Instance.constructor | stick/access.go:100-142 | a struct value holds one value of the declared type per field |
| Stick.GetIn | stick/access.go:100-111 | a field is read exactly when the accessor knows its name, giving the value at its position |
| Stick.Corrected | stick/access.go:127-131 | an untyped nil becomes the typed nil of a pointer field and stays untyped otherwise; typed values are unchanged |
| Stick.SetIn | stick/access.go:115-142 | writing an untyped nil into a non-pointer field panics; a value is stored exactly when the field is known and the corrected value has the field's type, changing that position only |
| Stick.SetThenGet | stick/access.go:100-142 | a stored value reads back corrected, and other fields read as before |
| Stick.SetKeepsTypes | stick/access.go:115-142 | writing through the accessor keeps every field of its declared type |
| Stick.Cache.constructor | stick/access.go:38-59 | a new cache holds no accessors |
| Stick.Cache.GetAccessor | stick/access.go:38-59 | the accessor of a type is the one built from its fields, skipping the embedded base; it is added to the cache only when missing |
| Stick.Cache.Get | stick/access.go:100-111 | reading returns the field's value and true, or an untyped nil and false for an unknown field |
| Stick.Cache.Set | stick/access.go:115-142 | writing stores the corrected value and returns true, returns false for an unknown field or wrong type, or panics on a nil in a non-pointer field |
| Stick.Cache.MustGet | stick/access.go:145-153 | reading a known field returns its value, and an unknown field panics |
| Stick.Cache.MustSet | stick/access.go:156-162 | a write that Set refuses panics, and one it accepts stores the value |
| Validators.Count | callbacks.go:175 | a count is the number of documents of the collection that match the query, and zero for an unknown collection |
| Validators.NotDeleted | callbacks.go:170-173 | a collection with a soft-delete field adds the condition that the field is null; one without adds nothing |
| Validators.BasicAuth | callbacks.go:16-35 | a request passes exactly when it carries basic credentials whose user is known and whose password matches; otherwise it is denied with the access-denied error, which keeps its own status 401 |
| Validators.BasicAuthorizer | callbacks.go:20-35 | the authorizer runs on every operation and applies BasicAuth |
| Validators.FirstChangedDefault | callbacks.go:120-131 | finds the first protected field whose value on create differs from its given default, and none exactly when all fields without a default are skipped and all others hold it |
| Validators.FirstChanged | callbacks.go:133-143 | finds the first protected field whose value on update differs from the original, and none exactly when all are unchanged |
| Validators.Protected | callbacks.go:116-147 | on create a protected field must hold its default; on update it must equal the original; the error names a protected field; other operations pass |
| Validators.ProtectedFieldsValidator | callbacks.go:116-147 | the validator runs on create and update and applies Protected |
| Validators.Dependent | callbacks.go:162-189 | a delete passes exactly when no collection of the pairs holds a live document referring to the model, and fails with the dependent-resources error otherwise |
| Validators.DependentResourcesValidator | callbacks.go:162-189 | the validator runs on delete only and applies Dependent |
| Validators.ReferrerBlocksDelete | callbacks.go:175-183 | one live referring document is enough to refuse the delete |
| Validators.Referenced | callbacks.go:203-258 | a create or update passes exactly when every set reference of the pairs resolves, a to-one id to an existing document and a to-many list to as many documents as it holds ids; the error names a field that does not, with the to-many wording for a list |
| Validators.ReferencedResourcesValidator | callbacks.go:203-258 | the validator runs on create and update and applies Referenced to the model |
| Validators.UniqueSet | callbacks.go:387 | removing duplicates keeps exactly the same ids and leaves them distinct |
| Validators.UniqueLength | callbacks.go:387 | removing duplicates keeps the length exactly when the ids are already distinct |
| Validators.MatchIds | callbacks.go:356-385 | a to-one reference gives its id; a null or empty to-many reference gives nothing to check; a to-many reference gives its ids |
| Validators.MatchQuery | callbacks.go:389-400 | the query asks for the ids and, per matcher pair, that the target field equals the model's field |
| Validators.Matching | callbacks.go:351-414 | an unset reference passes; otherwise the reference passes exactly when every distinct referenced document matches the query, and fails with the mismatch error otherwise |
| Validators.MatchingReferencesValidator | callbacks.go:351-414 | the validator runs on create and update and applies Matching to the model |
| Validators.UniqueQuery | callbacks.go:444-459 | the query asks for the field's value, each filter field's value and, when the collection soft-deletes, live documents only |
| Validators.UniqueField | callbacks.go:430-470 | an unchanged field on update or a zero value is skipped; otherwise the value is unique exactly when no document matches the query, and the error names the field |
| Validators.UniqueFieldValidator | callbacks.go:430-470 | the validator runs on create and update and applies UniqueField |
| Validators.DuplicateFails | callbacks.go:461-466 | one matching document is enough to refuse a value that is checked |
| Validators.InverseIn | callbacks.go:284-289 | the inverse field found is the stored field of a relationship of the related model with that inverse name, and none when there is no such relationship |
| Validators.CollectFails | callbacks.go:268-309 | building the pairs fails exactly when some relationship that is not excluded has no related model in the catalog or, for a has-one or has-many, no inverse field |
| Validators.CollectDependent | callbacks.go:268-296 | the built dependent map has a key for exactly the related models of the has-one and has-many relationships that are not excluded, each mapped to the storage field of the inverse relationship of one of those pointing at that model |
| Validators.CollectReferences | callbacks.go:297-307 | every stored relationship that is not excluded is recorded as a reference to its related model |
| Validators.BuildPairs | callbacks.go:263-309 | the loop over the relationships builds exactly what Collect describes |
| Validators.RelationshipValidator | callbacks.go:311-336 | the combined validator runs on delete, create and update; delete applies the dependent check and create or update the reference check |
| AshStrategy.Named | ash/strategy.go:63-65 | the list for a named action is the one the map holds, and empty for an unknown name |
| AshStrategy.Lists | ash/strategy.go:49-71 | each operation searches its own list, then the read, write or action-wide list of its kind (for actions the named list, then the collection-wide or resource-wide list, then the action-wide list), and the list for all operations last |
| AshStrategy.Callback | ash/strategy.go:49-71 | the strategy's callback matches every operation and searches the lists of the context's operation |
| AshStrategy.SkipPassing | ash/strategy.go:77-81 | authorizers that do not match, or yield nil, leave the search to the rest |
| AshStrategy.NoneDecides | ash/strategy.go:112 | when no authorizer decides, access is denied |
| AshStrategy.FirstDecides | ash/strategy.go:83-108 | the first authorizer that decides fixes the outcome: its fault, or the result of running its enforcers; later authorizers are never consulted |
| AshStrategy.EnforcedAppend | ash/strategy.go:90-107 | running two lists of enforcers in a row is running the first and then, on success, the second on the context it left |
| AshStrategy.RunEnforcers | ash/strategy.go:90-107 | the loop runs the enforcers in order, stops at the first fault and panics on an enforcer that cannot handle the context, exactly as Enforced describes |
| AshStrategy.Call | ash/strategy.go:73-113 | the nested loops over the lists give exactly the search of the joined lists |
| AshAuthorizers.A | ash/authorizer.go:7-31 | an authorizer without a matcher matches everything; its handler's outcome is passed on unchanged |
| AshAuthorizers.Both | ash/authorizer.go:81-97 | the joined enforcer matches when both match and runs the first, then the second on what it left; a fault of the first stops it |
| AshAuthorizers.And | ash/authorizer.go:50-99 | the joined authorizer matches when both match and runs AndHandler |
| AshAuthorizers.AndYields | ash/authorizer.go:50-99 | the joined authorizer yields an enforcer exactly when both authorizers match and yield one, and that enforcer runs both |
| AshAuthorizers.AndFaults | ash/authorizer.go:59-77 | a fault of the joined authorizer is the first authorizer's, or, once the first yielded an enforcer and the second matches, the second's |
| AshAuthorizers.Or | ash/authorizer.go:108-129 | the alternative matches everything and runs OrHandler |
| AshAuthorizers.OrPrefersFirst | ash/authorizer.go:108-129 | the first authorizer's fault or enforcer wins; only when it yields nil does the second decide, and the alternative yields an enforcer exactly in those two cases |
| Ash.All | ash/authorizer.go:9-11 | the default matcher accepts every context |
| Ash.AccessGranted | ash/enforcer.go:21-25 | the enforcer lets every context through unchanged |
| Ash.AccessDenied | ash/enforcer.go:33-37 | the enforcer denies every context |
| Ash.AddFilter | ash/enforcer.go:42-56 | the enforcer panics on create and collection actions and otherwise changes the filter only |
| Ash.AddFilterAssigns | ash/enforcer.go:49-52 | after the enforcer, every given key holds its given value and every other key is as it was |
| Ash.ApplyFilter | ash/enforcer.go:42-56 | the loop assigning the filters one by one ends with exactly AddFilter's context |
| Ash.HideFilter | ash/enforcer.go:61-68 | the enforcer panics on create and collection actions and otherwise adds the key no document has, so that nothing is found |
| LegacyBase.FirstWhere | base.go:30-31 | finds the first field the selector picks, and none exactly when it picks no field |
| LegacyBase.FieldReference | base.go:133-144 | a to-one or to-many field gives a loaded reference to its type and name, a has-many field one marked as not loaded, an attribute none |
| LegacyBase.ReferencesExactly | base.go:127-148 | the references list every relationship field, loaded or not as its kind says, and nothing else |
| LegacyBase.ReferencesOffered | base.go:132-145 | every relationship field offers its reference |
| LegacyBase.ReferencesOnly | base.go:132-145 | every offered reference comes from a relationship field |
| LegacyBase.FieldIds | base.go:158-204 | a set to-one field gives its id in hex, an unset optional one nothing, a to-many field one entry per id in order, any other field nothing |
| LegacyBase.ReferencedIdsAppend | base.go:153-208 | the referenced ids of joined field lists are those of the first list followed by those of the second |
| LegacyBase.AppendToManyIds | base.go:193-203 | the inner loop appends one reference id per stored id of the to-many field |
| LegacyBase.Parsed | base.go:258-264 | every checked hex id is parsed, in order |
| LegacyBase.AppendParsed | base.go:257-264 | the loop appends the parsed ids after the stored ones |
| LegacyBase.Base.constructor | base.go:79-89 | a base holds the model's fields, each of its declared type, and the given id |
| LegacyBase.Base.Get | base.go:29-39 | reads the value of the first field whose name, JSON name or BSON name is the given name, and panics exactly when no field has it |
| LegacyBase.Base.Set | base.go:46-56 | writes the first field so addressed, changing no other value and not the id, and panics when no field has the name |
| LegacyBase.Base.Initialize | base.go:79-89 | a missing id is replaced by a fresh one and an existing id is kept; values do not change |
| LegacyBase.Base.SetId | base.go:110-122 | an empty id takes a fresh one, a hex id is parsed, and anything else is refused with the id unchanged |
| LegacyBase.Base.GetReferences | base.go:127-148 | the loop returns exactly the references of the fields |
| LegacyBase.Base.GetReferencedIds | base.go:153-208 | the nested loops return exactly the referenced ids of the fields |
| LegacyBase.Base.SetToOneReferenceId | base.go:213-239 | a non-hex id is refused before anything changes; otherwise the first to-one field of that relationship name gets the id, or the missing relationship is reported and nothing changes |
| LegacyBase.Base.SetToManyReferenceIds | base.go:244-270 | any non-hex id refuses the call before anything changes; otherwise the ids are appended to the first to-many field of that relationship name, or the missing relationship is reported and nothing changes |
| LegacyBase.Base.StoreKeepsTyped | base.go:46-56 | writing a value of the field's type keeps every field typed |
| Axe.E | axe/task.go:17-27 | an error built from a reason and a retry flag carries both, and its message is the reason |
| Axe.Task.constructor | axe/task.go:29-68 | a task holds its name and the given settings |
| Axe.Task.Start | axe/task.go:70-94 | each unset setting takes its default (one worker, one attempt, 100 ms interval, one second delay, ten minute timeout) and each set one is kept |
| Axe.Task.OnError | axe/task.go:165-184 | a task error fails the job for a retry after the delay exactly when it asks for a retry and attempts remain; otherwise the job is cancelled; either carries the reason |
| Axe.Task.Execute | axe/task.go:136-197 | a dequeue error is reported and a missing job ends quietly; a decode error is reported; a task error moves the job as OnError says, another error is reported, and success completes the job with its result; a failure to store the move is reported |
| Axe.Task.NoJobSkipsHandler | axe/task.go:147-150 | when no job is dequeued the handler does not matter and nothing is reported |
| Axe.Task.RetryOnlyWithinAttempts | axe/task.go:165-178 | a job is failed for a retry only when the handler asked for one with attempts left, and the retry waits the configured delay |
| TextOrder.LeReflexive | coal/erd.go:36 | the string order used to sort names is reflexive |
| TextOrder.LeTotal | coal/erd.go:36 | any two strings are ordered one way or the other |
| TextOrder.LeAntisymmetric | coal/erd.go:36 | strings ordered both ways are equal |
| TextOrder.LeTransitive | coal/erd.go:36 | the order is transitive |
| TextOrder.Insert | coal/erd.go:36 | inserting into a sorted list keeps it sorted and adds exactly the one string |
| TextOrder.Sort | coal/erd.go:36 | sorting gives a sorted permutation of its input |
| TextOrder.SortedUnique | coal/erd.go:36 | two sorted permutations of the same strings are equal, so the sorted order of names does not depend on map order |
| Erd.Preamble | coal/erd.go:16-27 | the graph header starts with the graph opening |
| Erd.Names | coal/erd.go:30-36 | the model names are sorted and list every model of the catalog exactly once |
| Erd.AddDirect | coal/erd.go:82-91 | recording direct relationships keeps every recorded key present in the table |
| Erd.OneKeyPerField | coal/erd.go:82-91 | each direct to-one or to-many field with a relationship name appends one key, after the earlier keys |
| Erd.AddDirectAppend | coal/erd.go:77-93 | recording two runs of fields is recording the first, then the second |
| Erd.SortedWithin | coal/erd.go:111-116 | every sorted key names a recorded relationship |
| Erd.MarkKeepsKeys | coal/erd.go:96-108 | marking inverses changes no key, endpoint or source multiplicity |
| Erd.MarkFails | coal/erd.go:101-106 | marking fails (a nil dereference) exactly when some has-one or has-many field names an inverse that no direct relationship records |
| Erd.MarkedInverses | coal/erd.go:101-106 | a relationship is marked as having an inverse exactly when it already was or some indirect field names it, and many at the target only when it already was or such a field is a has-many |
| Erd.MarkAppend | coal/erd.go:96-108 | marking two runs of fields is marking the first, then the second, and a failure stops it |
| Erd.Render | coal/erd.go:11-143 | a rendered graph starts with the graph opening and ends with its closing brace |
| Erd.Framed | coal/erd.go:16-141 | a header followed by any body and the closing brace is a framed graph |
| Erd.WriteRows | coal/erd.go:53-55 | the loop writes one row per field, in order |
| Erd.WriteNode | coal/erd.go:39-62 | the writes of one model give exactly its node |
| Erd.WriteNodes | coal/erd.go:38-62 | the loop writes the nodes of the models in the order of the names |
| Erd.DirectOf | coal/erd.go:82-91 | the loop over one model's fields records exactly AddDirect's relationships |
| Erd.CollectDirect | coal/erd.go:77-93 | the loop over the models records the direct relationships of all their fields in order |
| Erd.InversesOf | coal/erd.go:101-107 | the loop over one model's fields marks exactly MarkInverses's result |
| Erd.MarkAll | coal/erd.go:96-108 | the loop over the models marks the inverses of all their fields in order |
| Erd.SortedNames | coal/erd.go:30-36 | the loop and the sort give exactly the sorted model names |
| Erd.WriteEdges | coal/erd.go:113-138 | the loop writes one edge per sorted key, solid when it has an inverse, with arrow heads for many at either end |
| Erd.Visualize | coal/erd.go:11-143 | the whole rendering is exactly Dot's: header, nodes, then edges, or the failure of a missing inverse |
| Flame.Token.constructor | flame/models.go:42-49 | a new access or refresh token has no scope, no expiry, no client and no resource owner |
| Flame.Token.DescribeToken | flame/models.go:51-57 | a token names its client id field and its expiry field |
| Flame.Token.SetTokenData | flame/models.go:69-75 | after setting the token data, the token reports exactly that data |
| Flame.Application.DescribeClient | flame/models.go:146-151 | an application is identified by its key |
| Flame.Application.ValidRedirectURI | flame/models.go:153-156 | a redirect URI is valid exactly when it is the registered one |
| Flame.User.DescribeResourceOwner | flame/models.go:196-201 | a user is identified by its email |
| Flame.User.DataForAccessToken | flame/models.go:208-213 | the access token carries the user's name and nothing else |
| Flame.First | flame/tools.go:44 | the first value of a key, or empty when the key has none |
| Flame.Migrated | flame/tools.go:40-65 | without an access token parameter nothing changes; with one, an empty authorization header becomes a bearer header with the token, a present header is kept, no other header changes, and the parameter is removed exactly when asked |
| Flame.MigrateTwice | flame/tools.go:40-65 | migrating a second time leaves the headers as the first time left them, and changes nothing at all when the parameter was removed |
| Flame.Request.constructor | flame/tools.go:42 | a request holds the given headers and query |
| Flame.MigrateToken | flame/tools.go:40-65 | the middleware changes the request's headers and query exactly as Migrated says |
| Flame.Named | flame/tools.go:71-74 | the applications with the name are exactly those of the store that have it |
| Flame.EnsureApplication | flame/tools.go:69-119 | two or more applications with the name are an error; one gives its key; none creates and stores a validated application and gives the new key, or reports the validation error and stores nothing |
| Flame.EnsureApplicationTwice | flame/tools.go:69-119 | ensuring an application a second time changes nothing and gives the same key |
| Flame.EnsureFirstUser | flame/tools.go:123-153 | with any user present nothing happens; otherwise a validated first user is stored, or the validation error is reported and nothing is stored |
| Flame.EnsureFirstUserTwice | flame/tools.go:123-153 | once a user exists, ensuring the first user again changes nothing |
| AuthModels.Token.constructor | auth/models.go:34-43 | a new access or refresh token has no signature, scope, expiry, client or resource owner |
| AuthModels.Token.DescribeToken | auth/models.go:45-48 | a token names its signature field and its expiry field |
| AuthModels.Token.SetTokenData | auth/models.go:61-68 | after setting the token data, the token reports exactly that data, signature included |
| AuthModels.Application.DescribeClient | auth/models.go:135-138 | an application is identified by its key |
| AuthModels.Application.ValidRedirectURI | auth/models.go:140-143 | a redirect URI is valid exactly when it is the registered one |
| AuthModels.User.DescribeResourceOwner | auth/models.go:171-174 | a user is identified by its email |
| Spark.Classify | spark/watcher.go:57-75 | without soft deletion every event passes as it is; with it, real deletions are dropped and an update becomes a deletion exactly when the deletion time is set and not zero |
| Spark.SoftDeletionsOnly | spark/watcher.go:58-75 | under soft deletion an event is delivered as a deletion exactly when it is an update of a soft-deleted record, and that is the only change of kind |
| Spark.Watcher.constructor | spark/watcher.go:25-35 | a new watcher has no streams |
| Spark.Watcher.Add | spark/watcher.go:38-48 | adding a stream whose name is taken panics and changes nothing; otherwise the stream is registered under its name |
| Spark.Watcher.Deliver | spark/watcher.go:57-86 | an event of a stream is broadcast exactly when Classify keeps it, with the kind Classify gives and the record's id |
| ExampleItem.Validate | example/models.go:46-58 | an item is valid exactly when it has a name and a creation time; the name is checked first |
| Fields.KeyToName | controller.go:1216-1226 | a fieldset entry names the field whose attribute key or relationship name it is, and nothing when no field has it |
| Fields.FirstUnknown | controller.go:1216-1229 | the entry reported as an invalid sparse field is one of the requested entries that names no field, and there is none exactly when every entry names a field |
| Fields.KnownNames | controller.go:1216-1226 | the requested field names are exactly the names of the known entries |
| Tokens.WithToken | controller.go:482 | setting a token field changes that field only and keeps the id |
| Assign.Accepted | controller.go:1425-1449 | the accepted attributes are exactly the submitted ones that may be written, with their submitted values |
| ToMany.FirstRejected | controller.go:1083-1093 | no identifier is rejected exactly when every submitted identifier has the relationship's type and a valid id |
| CoalManager.PatchMatching | coal/manager.go:582-621 | every matching document is patched and its lock changed, every other one is kept, and the order and ids stay as they were |
| CoalManager.Without | coal/manager.go:690-709 | the documents kept are exactly those that do not match |
| Render.Preload | controller.go:1552-1678 | preloading fails only with an internal error |
| Render.PreloadFields | controller.go:1577-1674 | preloading field by field fails only with an internal error |
| Render.Attributes | controller.go:1714-1740 | a resource carries exactly the readable attributes, keyed by their JSON keys |
| Render.RelDocs | controller.go:1761-1889 | building the relationship documents fails only with the has-one overflow error |
| Render.ConstructRels | controller.go:1708-1893 | a constructed resource carries exactly the relationship documents RelDocs builds for it |

## Left out

- HTTP parsing and writing: the request arrives already parsed into an intent, query parameters and a document, and the response is the status and document the controller settles on; the body, document and time-out limits and the tracing spans are not modelled.
- BSON translation: queries are conjunctions of field conditions; the in-memory store does not apply sort keys, so sorters are compiled and checked but do not reorder listed documents.
- The last page of the pagination links uses a floating-point ceiling in the source; the model uses the integer ceiling, which agrees with it while counts stay below 2^53.
- The wall clock and the generation of fresh identifiers and tokens come in through an environment parameter.
- Concurrency: the worker pool of background tasks, the watcher's streams and broadcast, and the accessor cache's mutex are left out; each operation is modelled as one atomic step.
- Transactions are modelled as a flag on the context and a rollback of the store on failure; sessions and retries of the driver are left out.
- OAuth2 flows, token signing and the hashing and comparison of secrets and passwords are left out; the flame tools store the name, key, secret and password as given, and the secret and password checks of the models are not modelled.
- Reflection: field types, type names and struct layouts are data of the model (a field list and a type-name parameter for the entity-relationship graph).
- ModelValidator and TimestampValidator (callbacks.go:47-95) are not modelled: they call model methods and clocks outside this model.
- The relationship filters that callbacks can add for preloading (controller.go:1626-1629) are not modelled: preloading applies the soft-deletion filter only.
- Go map iteration order: where the source ranges over a map, the model visits the entries in declaration order or over a set in no particular order; the members below fix declaration order.
- Validators.BuildPairs: the relationships are visited in declaration order, where callbacks.go:269 ranges over the Relationships map. Two things therefore follow declaration order where the source follows map order: which panic message is returned when two relationships cannot be built, and which inverse field the dependent map keeps when two has-one or has-many relationships point at the same model with different inverses (callbacks.go:295; the last declared one here). Validators.CollectDependent states what holds for every order.
- Fields.ListNames: the names come in declaration order within the attributes and within the relationships; the source ranges over the Attributes and Relationships maps (controller.go:1203-1210), so its order within each group is one of many.
- Render.PreloadRelationships: relationships are preloaded in declaration order, so when two fail the error of the earlier declared one is returned; the source ranges over the Relationships map (controller.go:1578) and may return either (both are internal errors, as Render.Preload states).
- Erd.WriteRows: the field rows of a node come in declaration order; the source ranges over the Fields map of the model's metadata (coal/erd.go:53), so its row order is one of many.
- Erd.WriteNode: inherits the row order of Erd.WriteRows.
- Erd.Visualize: equal to one rendering whose node rows follow declaration order; node and edge order are sorted as in the source, only the rows inside a node may differ from a run of the source.
- Assign.AssignData: the decoding of the accepted attributes into the model's Go fields (controller.go:1451-1452) is not modelled; a submitted value whose JSON type does not fit the field's Go type aborts the request in the source, while the model stores any accepted value.
- Controllers.Controller.AssignData: inherits the unmodelled decoding failure of Assign.AssignData.
- The in-memory manager fails only on its own guards (transaction required, lock with skip or limit, immutable id, duplicate key); driver and network errors of coal/manager.go are not modelled, so the model never reaches the `stack.AbortIf` checks that follow manager calls such as the writes of Delete (controller.go:672-688).
- ListQuery.SkipLimit: the skip (page number - 1) * page size is computed in 64-bit integers in the source (controller.go:1383-1388) and wraps for huge page numbers; the model's integers do not wrap.
- Callback side effects other than added filters and a replaced model are left out, and so are partial changes an enforcer makes before it panics.
- A type mismatch in the legacy base's Set panics in Go; the model takes the value as given.
- The watcher's action and manager (subscriptions, sockets) are left out, and so is the panic of a stream model without a soft-delete field.
- The re-encoding of the query string in the token migrator is left out: the query is a map of parameters.
- The example's index setup and package initialisation are left out.
- GetName, GetID, Validate and Meta of the legacy base are left out: they only read fields or call the struct validator.
- coal/meta.go is not part of this model: model metadata (fields, names, relationships, flags) is an input.
- The controller calls the manager's methods without a lock argument; the model passes no lock, except when the model of a write operation is loaded.
- Erd.MarkedInverses: states which relationships are marked and that a many target comes from some has-many field, but not that the last marking field decides the target multiplicity.

## Findings

| source | as written | input that shows it | evidently intended | confidence | as-written member | corrected member |
|---|---|---|---|---|---|---|
| coal/manager.go:100-121 | FindFirst builds find options with the sort and the skip but passes neither to FindOne or FindOneAndUpdate, so both are ignored | a collection of two documents, the empty query and skip 1: the first document is returned | the skip-th matching document (here the second) is returned | not executed | CoalManager.FindFirstAsWritten (shown by CoalManager.FindFirstIgnoresSkip) | CoalManager.FindFirstStep |
