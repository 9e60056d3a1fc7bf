# Dynamic-price ticketing core, modelled in Dafny

This project models the domain core of a ticketing back end with dynamic prices. Three aggregates are modelled:
- an `Event` with a price that changes;
- a `Ticket` for a user and an event;
- a `User`.

It also models:
- the validators behind those aggregates, and the notification that collects their errors;
- the in-memory user and ticket repositories (filtering, default newest-first ordering, finders);
- the normalisation of the event search filter;
- the use cases that create tickets and users only when they are valid;
- the output mappers and the user persistence mapper;
- the event listing use case, which resolves every event's price cache-aside: a cache read, a fallback price source on a miss, a write-back that records a one-hour expiry (the expiry itself never takes effect in the model);
- the product assembler and product service of the refactoring exercise: a falsy-or-keep merge of update requests, and a start/commit/abort/end session envelope around the writes.

Pure logic is written as functions with lemmas. Objects whose fields the source reassigns are classes:
- `Event`, `Ticket` and `Product`;
- the notification, the repositories, the cache, the fallback source and the database session.

Their methods are proved against those functions. Clocks, identifier generation, the cache and fallback outcomes, e-mail syntax, price parsing, the event repository's search and date printing are parameters.

## Model

| member | source | states |
|---|---|---|
| EventRepository.Normalize | dynamic-price-project/src/core/event/domain/event.repository.ts:39-52 | the filter is null exactly when the input is not a truthy object or none of title, location, dateRange is truthy; each key is kept exactly when truthy, texts as printed strings, the date range unchanged |
| EventRepository.KeepText | dynamic-price-project/src/core/event/domain/event.repository.ts:46-47 | a text key is kept exactly when its value is truthy |
| EventRepository.NormalizeIsNormal | dynamic-price-project/src/core/event/domain/event.repository.ts:39-52 | a normalised filter has only non-empty texts, a truthy date range and at least one key |
| EventRepository.NormalRoundTrip | dynamic-price-project/src/core/event/domain/event.repository.ts:39-52 | normalising the object form of a normal filter gives that filter back |
| EventRepository.NormalizeIdempotent | dynamic-price-project/src/core/event/domain/event.repository.ts:39-52 | normalising twice is the same as normalising once |
| EventRepository.ExtraKeysIgnored | dynamic-price-project/src/core/event/domain/event.repository.ts:39-52 | keys other than title, location and dateRange do not change the result |
| EventRepository.TruthyPrintsNonEmpty | dynamic-price-project/src/core/event/domain/event.repository.ts:46-47 | a truthy value prints as a non-empty string when dates do |
| EventRepository.ShallowCopy | dynamic-price-project/src/core/event/domain/event.repository.ts:31 | a missing filter stays undefined, a given one is copied key for key |
| EventRepository.Create | dynamic-price-project/src/core/event/domain/event.repository.ts:29-32 | the new search parameters hold the normalised copy of the filter |
| EventRepository.CreateStoresNormal | dynamic-price-project/src/core/event/domain/event.repository.ts:29-36 | the stored filter is normal and is a fixed point of the setter |
| EventValidator.TitleMessages | dynamic-price-project/src/core/event/domain/event.validator.ts:7-9 | no message exactly when the title is non-empty and at most 255 long; each message matches its failed rule |
| EventValidator.DescriptionMessages | dynamic-price-project/src/core/event/domain/event.validator.ts:11-13 | no message exactly when the description is absent or at most 1000 long |
| EventValidator.DateMessages | dynamic-price-project/src/core/event/domain/event.validator.ts:15-16 | no message exactly when the date is valid |
| EventValidator.LocationMessages | dynamic-price-project/src/core/event/domain/event.validator.ts:18-20 | no message exactly when the location is non-empty and at most 255 long |
| EventValidator.Errors | dynamic-price-project/src/core/event/domain/event.validator.ts:6-25 | errors only for the requested groups, and none exactly when every requested group's rules hold |
| EventValidator.DefaultFieldGroups | dynamic-price-project/src/core/event/domain/event.validator.ts:33 | no or empty fields means title, date and location; otherwise the given fields |
| EventValidator.PriceGroupHasNoRules | dynamic-price-project/src/core/event/domain/event.validator.ts:6-25 | validating the price group never reports an error |
| EventValidator.LongTitleReported | dynamic-price-project/src/core/event/domain/event.validator.ts:8 | a title over 255 characters is reported under the default groups |
| EventValidator.Validate | dynamic-price-project/src/core/event/domain/event.validator.ts:28-35 | appends exactly the errors of the chosen groups and answers whether there were none |
| Validation.Tagged | dynamic-price-project/src/core/event/domain/event.validator.ts:34 | each message becomes one error of the field, in order |
| Validation.FieldsOrDefault | dynamic-price-project/src/core/event/domain/event.validator.ts:33 | an absent or empty field list is replaced by the defaults |
| Validation.ValidateInto | dynamic-price-project/src/core/event/domain/event.validator.ts:34 | the notification gains exactly the found errors; the answer is whether there were none |
| EventAggregate.Event.constructor | dynamic-price-project/src/core/event/domain/event.aggregate.ts:37-48 | given id and creation time are kept, otherwise fresh ones; every other field is copied; the notification holds the default-group errors |
| EventAggregate.Event.Create | dynamic-price-project/src/core/event/domain/event.aggregate.ts:50-57 | a fresh event with the command's fields, whose notification holds the default-group errors twice, once per validation |
| EventAggregate.CreateErrorsIffInvalid | dynamic-price-project/src/core/event/domain/event.aggregate.ts:50-57 | a created event has no errors exactly when its title, date and location are valid |
| EventAggregate.LongTitleRecorded | dynamic-price-project/src/core/event/domain/event.aggregate.ts:55 | creating an event with a title over 255 characters records the too-long error |
| EventAggregate.Event.UpdatePrice | dynamic-price-project/src/core/event/domain/event.aggregate.ts:59-62 | the price becomes the new one; validating the price group adds no error |
| EventAggregate.Event.Validate | dynamic-price-project/src/core/event/domain/event.aggregate.ts:64-67 | appends the errors of the requested groups of the current fields |
| EventAggregate.Event.EntityId | dynamic-price-project/src/core/event/domain/event.aggregate.ts:69-71 | the event's id |
| EventAggregate.Event.ToJSON | dynamic-price-project/src/core/event/domain/event.aggregate.ts:73-84 | every field copied, the id as its text |
| EventOutputMapper.ToOutput | dynamic-price-project/src/core/event/application/use-cases/common/event-output.ts:16-25 | every output field equals the event's field |
| EventOutputMapper.OutputMatchesJson | dynamic-price-project/src/core/event/application/use-cases/common/event-output.ts:16-25 | the output agrees with the JSON form, and events with equal JSON have equal output |
| ListEvents.CacheKey | dynamic-price-project/src/core/event/application/use-cases/list-events/list-events.use-case.ts:67 | the key is "event-price-" followed by the id |
| ListEvents.CacheKeyInjective | dynamic-price-project/src/core/event/application/use-cases/list-events/list-events.use-case.ts:67 | different events use different cache keys |
| ListEvents.ReadCache | dynamic-price-project/src/core/event/application/use-cases/list-events/list-events.use-case.ts:63-83 | a read error is a miss; otherwise the stored value, if any |
| ListEvents.HitSkipsFallback | dynamic-price-project/src/core/event/application/use-cases/list-events/list-events.use-case.ts:38-45 | a non-empty cached price is used without calling the fallback or writing the cache |
| ListEvents.MissFetchesAndWrites | dynamic-price-project/src/core/event/application/use-cases/list-events/list-events.use-case.ts:38-45 | on a miss the fallback is called once and its price is stored with a 3600 second expiry |
| ListEvents.ReadErrorIsMiss | dynamic-price-project/src/core/event/application/use-cases/list-events/list-events.use-case.ts:63-83 | a failing cache read behaves as if the key were absent |
| ListEvents.WriteErrorSwallowed | dynamic-price-project/src/core/event/application/use-cases/list-events/list-events.use-case.ts:107-117 | a failing cache write still yields the fetched price and leaves the cache as it was |
| ListEvents.FallbackFailureFailsItem | dynamic-price-project/src/core/event/application/use-cases/list-events/list-events.use-case.ts:85-105 | when the fallback has no price the item fails with the retrieval error and nothing is cached |
| ListEvents.SecondResolveHitsCache | dynamic-price-project/src/core/event/application/use-cases/list-events/list-events.use-case.ts:38-45 | after a successful fetch, the next resolution of the same event is a cache hit with the same price and no new call |
| ListEvents.ResolveAll | dynamic-price-project/src/core/event/application/use-cases/list-events/list-events.use-case.ts:35-58 | one outcome per event, in order |
| ListEvents.FirstError | dynamic-price-project/src/core/event/application/use-cases/list-events/list-events.use-case.ts:35-58 | no error exactly when every item succeeded; otherwise the error of some failed item |
| ListEvents.Ids | dynamic-price-project/src/core/event/application/use-cases/list-events/list-events.use-case.ts:36-38 | the ids of the events, in order |
| ListEvents.PricedOutputIsOutput | dynamic-price-project/src/core/event/application/use-cases/list-events/list-events.use-case.ts:45-56 | the output built after setting the price is the mapper's output of the updated event |
| ListEvents.ItemFailureFailsPage | dynamic-price-project/src/core/event/application/use-cases/list-events/list-events.use-case.ts:35-58 | any failed item fails the whole listing |
| ListEvents.OrderPreserved | dynamic-price-project/src/core/event/application/use-cases/list-events/list-events.use-case.ts:35-58 | a successful listing has one output per event, in input order, with each event's id and resolved price |
| ListEvents.FinalPriceDistinct | dynamic-price-project/src/core/event/application/use-cases/list-events/list-events.use-case.ts:45 | on a page of distinct events, each event ends with its resolved price, or its old one if resolution failed |
| ListEvents.FinalPriceAbsent | dynamic-price-project/src/core/event/application/use-cases/list-events/list-events.use-case.ts:35-58 | events not on the page keep their price |
| ListEvents.RedisService.Get | dynamic-price-project/src/core/event/application/use-cases/list-events/list-events.use-case.ts:67 | a failing read is an error; otherwise the stored value, if any |
| ListEvents.RedisService.Set | dynamic-price-project/src/core/event/application/use-cases/list-events/list-events.use-case.ts:109 | a failing write is an error and changes nothing; otherwise the key is stored with its expiry |
| ListEvents.FallbackApi.GetPrice | dynamic-price-project/src/core/event/application/use-cases/list-events/list-events.use-case.ts:88 | the call is recorded and the source's price for the event is returned |
| ListEvents.ListEventsUseCase.GetEventPriceFromCache | dynamic-price-project/src/core/event/application/use-cases/list-events/list-events.use-case.ts:63-83 | equals the cache read of the specification |
| ListEvents.ListEventsUseCase.FetchPriceFromFallbackApi | dynamic-price-project/src/core/event/application/use-cases/list-events/list-events.use-case.ts:85-105 | one recorded call; the price, or the retrieval error |
| ListEvents.ListEventsUseCase.CacheEventPrice | dynamic-price-project/src/core/event/application/use-cases/list-events/list-events.use-case.ts:107-117 | the cache gains the price with a 3600 second expiry unless the write fails, which is swallowed |
| ListEvents.ListEventsUseCase.ResolvePrice | dynamic-price-project/src/core/event/application/use-cases/list-events/list-events.use-case.ts:37-54 | follows one step of the specification: the same outcome and services, and the event's price set only on success |
| ListEvents.ListEventsUseCase.Advance | dynamic-price-project/src/core/event/application/use-cases/list-events/list-events.use-case.ts:36-57 | resolving the next item extends the outcomes, the services and the gathered outputs by that item's step; only that item's price may change, and no event's notification errors change |
| ListEvents.ListEventsUseCase.ToOutput | dynamic-price-project/src/core/event/application/use-cases/list-events/list-events.use-case.ts:32-61 | the result is the page outcome of the specification; the services end as after resolving every item; every event's price is its final price; no event's notification errors change |
| ListEvents.ListEventsUseCase.Execute | dynamic-price-project/src/core/event/application/use-cases/list-events/list-events.use-case.ts:26-30 | whatever the input, the search runs without a filter; the answer is the page outcome of the events found, the services end as after resolving every item, and every listed event's price is its final price; no listed event's notification errors change |
| ListEvents.AsProps | dynamic-price-project/src/core/event/application/use-cases/list-events/list-events.input.ts:67-79 | the input passed to the search parameters has exactly the ten declared properties and no `filter` |
| ListEvents.FilterProp | dynamic-price-project/src/core/event/domain/event.repository.ts:31 | a filter is taken exactly when the properties hold a truthy object under `filter` |
| ListEvents.InputHasNoFilter | dynamic-price-project/src/core/event/application/use-cases/list-events/list-events.use-case.ts:27 | the search parameters built from any listing input carry no filter |
| TicketValidator.ParseStatus | dynamic-price-project/src/core/tickets/domain/ticket.validator.ts:6-10 | a status parses exactly when it is active, cancelled or used, and to the value it names |
| TicketValidator.StatusRoundTrip | dynamic-price-project/src/core/tickets/domain/ticket.validator.ts:6-10 | every status parses back from its text |
| TicketValidator.StatusMessages | dynamic-price-project/src/core/tickets/domain/ticket.validator.ts:13-16 | no message exactly when the status is one of the enum's values |
| TicketValidator.PriceMessages | dynamic-price-project/src/core/tickets/domain/ticket.validator.ts:18-20 | no message exactly when the price is not negative |
| TicketValidator.PurchaseDateMessages | dynamic-price-project/src/core/tickets/domain/ticket.validator.ts:22-23 | no message exactly when the purchase date is valid |
| TicketValidator.Errors | dynamic-price-project/src/core/tickets/domain/ticket.validator.ts:12-28 | errors only for the requested fields, and none exactly when every requested field's rule holds |
| TicketValidator.DefaultFieldList | dynamic-price-project/src/core/tickets/domain/ticket.validator.ts:36-38 | no or empty fields means status, price and purchaseDate |
| TicketValidator.UnknownStatusReported | dynamic-price-project/src/core/tickets/domain/ticket.validator.ts:13-16 | a status outside the enum is reported with its message |
| TicketValidator.NegativePriceReported | dynamic-price-project/src/core/tickets/domain/ticket.validator.ts:19 | a negative price is reported with its message |
| TicketValidator.Validate | dynamic-price-project/src/core/tickets/domain/ticket.validator.ts:30-40 | appends exactly the errors of the chosen fields and answers whether there were none |
| TicketAggregate.Ticket.constructor | dynamic-price-project/src/core/tickets/domain/ticket.aggregate.ts:36-45 | given id, purchase date and creation time are kept, otherwise a fresh id and now; other fields copied; no errors |
| TicketAggregate.Ticket.Create | dynamic-price-project/src/core/tickets/domain/ticket.aggregate.ts:51-55 | a fresh ticket with the command's fields, purchased now, whose notification holds the default-field errors |
| TicketAggregate.CreateErrorsIffInvalid | dynamic-price-project/src/core/tickets/domain/ticket.aggregate.ts:51-55 | a created ticket has no errors exactly when its status is valid and its price is not negative |
| TicketAggregate.Ticket.UpdateStatus | dynamic-price-project/src/core/tickets/domain/ticket.aggregate.ts:57-60 | the status becomes the new one, and only an invalid status adds its error |
| TicketAggregate.Ticket.Validate | dynamic-price-project/src/core/tickets/domain/ticket.aggregate.ts:62-65 | appends the errors of the requested fields of the current ticket |
| TicketAggregate.Ticket.EntityId | dynamic-price-project/src/core/tickets/domain/ticket.aggregate.ts:47-49 | the ticket's id |
| TicketAggregate.Ticket.ToJSON | dynamic-price-project/src/core/tickets/domain/ticket.aggregate.ts:67-77 | every field copied, the event and the user by their ids |
| TicketOutputMapper.ToOutput | dynamic-price-project/src/core/tickets/application/use-cases/common/ticket-output.ts:15-35 | every output field equals the ticket's field, event and user by id |
| TicketOutputMapper.OutputIsJson | dynamic-price-project/src/core/tickets/application/use-cases/common/ticket-output.ts:15-34 | the output is the JSON form field for field, so equal JSON gives equal output |
| TicketRepository.EmptyFilterMatchesAll | dynamic-price-project/src/core/tickets/infra/db/in-memory/ticket-in-memory.repository.ts:19-24 | an empty status filter matches every ticket |
| TicketRepository.FilterByStatus | dynamic-price-project/src/core/tickets/infra/db/in-memory/ticket-in-memory.repository.ts:23-25 | keeps, in order, exactly the tickets whose status contains the filter, ignoring case |
| TicketRepository.FilterByStatusCounts | dynamic-price-project/src/core/tickets/infra/db/in-memory/ticket-in-memory.repository.ts:23-25 | each matching ticket is kept as often as it occurs, and every other ticket is dropped |
| TicketRepository.ParseSortField | dynamic-price-project/src/core/tickets/infra/db/in-memory/ticket-in-memory.repository.ts:13 | a field is sortable exactly when it is price, status or created_at |
| TicketRepository.SortFieldNames | dynamic-price-project/src/core/tickets/infra/db/in-memory/ticket-in-memory.repository.ts:13 | every sort field parses back from its name |
| TicketRepository.KeyedBy | dynamic-price-project/src/core/tickets/infra/db/in-memory/ticket-in-memory.repository.ts:28-36 | pairs each ticket with its key, in order |
| TicketRepository.SortByField | dynamic-price-project/src/core/tickets/infra/db/in-memory/ticket-in-memory.repository.ts:34 | a permutation ordered by the field in the given direction |
| TicketRepository.SortedKeysCorrect | dynamic-price-project/src/core/tickets/infra/db/in-memory/ticket-in-memory.repository.ts:34 | reordering keeps each ticket paired with its own key |
| TicketRepository.NewestFirst | dynamic-price-project/src/core/tickets/infra/db/in-memory/ticket-in-memory.repository.ts:35 | a permutation with the newest creation time first |
| TicketRepository.CreatedAtDescending | dynamic-price-project/src/core/tickets/infra/db/in-memory/ticket-in-memory.repository.ts:35 | descending order on the creation key is newest first |
| TicketRepository.TicketInMemoryRepository.ApplyFilter | dynamic-price-project/src/core/tickets/infra/db/in-memory/ticket-in-memory.repository.ts:15-26 | no or empty filter keeps every ticket; otherwise exactly the matching tickets, in order, each as often as it occurs |
| TicketRepository.TicketInMemoryRepository.ApplySort | dynamic-price-project/src/core/tickets/infra/db/in-memory/ticket-in-memory.repository.ts:28-36 | a permutation; sorted by the field when one is given, newest first otherwise |
| TicketRepository.TicketInMemoryRepository.FindByUserId | dynamic-price-project/src/core/tickets/infra/db/in-memory/ticket-in-memory.repository.ts:38-40 | exactly the tickets of the user, in order, each as often as it occurs |
| CreateTicket.CreateTicketUseCase.Execute | dynamic-price-project/src/core/tickets/application/use-cases/create-ticket/create-ticket.use-case.ts:14-24 | fails with the ticket's errors and stores nothing exactly when the ticket is invalid; otherwise stores it and answers its output |
| UserValidator.NameMessages | dynamic-price-project/src/core/user/domain/user.validator.ts:7-10 | no message exactly when the name is 1 to 100 long |
| UserValidator.EmailMessages | dynamic-price-project/src/core/user/domain/user.validator.ts:12-13 | no message exactly when the e-mail is well formed |
| UserValidator.PasswordMessages | dynamic-price-project/src/core/user/domain/user.validator.ts:15-18 | no message exactly when the password is 6 to 100 long |
| UserValidator.Errors | dynamic-price-project/src/core/user/domain/user.validator.ts:6-23 | errors only for the requested fields, and none exactly when every requested field's rules hold |
| UserValidator.DefaultFieldList | dynamic-price-project/src/core/user/domain/user.validator.ts:27 | no or empty fields means name, email and password |
| UserValidator.InvalidEmailReported | dynamic-price-project/src/core/user/domain/user.validator.ts:12-13 | a malformed e-mail is reported with its message |
| UserValidator.Validate | dynamic-price-project/src/core/user/domain/user.validator.ts:25-29 | appends exactly the errors of the chosen fields and answers whether there were none |
| UserAggregate.User.constructor | dynamic-price-project/src/core/user/domain/user.aggregate.ts:23-30 | given id and creation time are kept, otherwise fresh ones; no errors |
| UserAggregate.User.Create | dynamic-price-project/src/core/user/domain/user.aggregate.ts:36-47 | a fresh user with the command's fields whose notification holds the default-field errors |
| UserAggregate.CreateErrorsIffInvalid | dynamic-price-project/src/core/user/domain/user.aggregate.ts:36-47 | a created user has no errors exactly when name, e-mail and password are valid |
| UserAggregate.User.Validate | dynamic-price-project/src/core/user/domain/user.aggregate.ts:49-52 | appends the errors of the requested fields |
| UserAggregate.User.EntityId | dynamic-price-project/src/core/user/domain/user.aggregate.ts:32-34 | the user's id |
| UserAggregate.User.ToJSON | dynamic-price-project/src/core/user/domain/user.aggregate.ts:54-62 | every field copied, the id as its text |
| UserOutputMapper.ToOutput | dynamic-price-project/src/core/user/application/use-cases/common/user-output.ts:12-20 | id, name, e-mail and creation time of the user |
| UserOutputMapper.PasswordNotExposed | dynamic-price-project/src/core/user/application/use-cases/common/user-output.ts:12-20 | users that differ only in password have the same output |
| UserOutputMapper.OutputPlusPasswordIsJson | dynamic-price-project/src/core/user/application/use-cases/common/user-output.ts:12-20 | the output is the JSON form without the password |
| UserModelMapper.ToModel | dynamic-price-project/src/core/user/infra/db/mongo/user-mapper.ts:6-14 | every field copied, the id as its text |
| UserModelMapper.ModelKeepsRules | dynamic-price-project/src/core/user/infra/db/mongo/user-mapper.ts:6-29 | a user's stored record validates as the user does |
| UserModelMapper.ToEntity | dynamic-price-project/src/core/user/infra/db/mongo/user-mapper.ts:16-29 | fails with the errors exactly when the record is invalid; otherwise a fresh clean user that maps back to the record |
| UserModelMapper.ReloadUser | dynamic-price-project/src/core/user/infra/db/mongo/user-mapper.ts:6-29 | a valid user survives the round trip through its record |
| UserRepository.ParseSortField | dynamic-price-project/src/core/user/infra/db/in-memory/user-in-memory.repository.ts:10 | a field is sortable exactly when it is name, email or created_at |
| UserRepository.SortFieldNames | dynamic-price-project/src/core/user/infra/db/in-memory/user-in-memory.repository.ts:10 | every sort field parses back from its name |
| UserRepository.SortByField | dynamic-price-project/src/core/user/infra/db/in-memory/user-in-memory.repository.ts:37 | a permutation ordered by the field in the given direction |
| UserRepository.NewestFirst | dynamic-price-project/src/core/user/infra/db/in-memory/user-in-memory.repository.ts:38 | a permutation with the newest creation time first |
| UserRepository.CreatedAtDescending | dynamic-price-project/src/core/user/infra/db/in-memory/user-in-memory.repository.ts:38 | descending order on the creation key is newest first |
| UserRepository.UserInMemoryRepository.ApplyFilter | dynamic-price-project/src/core/user/infra/db/in-memory/user-in-memory.repository.ts:12-29 | no filter keeps every user; otherwise exactly the matching users, in order, each as often as it occurs |
| UserRepository.UserInMemoryRepository.ApplySort | dynamic-price-project/src/core/user/infra/db/in-memory/user-in-memory.repository.ts:31-39 | a permutation; sorted by the field when one is given, newest first otherwise |
| UserRepository.UserInMemoryRepository.FindByEmail | dynamic-price-project/src/core/user/infra/db/in-memory/user-in-memory.repository.ts:41-46 | none exactly when no user's e-mail equals it ignoring case; otherwise the first such user |
| UserRepository.UserInMemoryRepository.FindByName | dynamic-price-project/src/core/user/infra/db/in-memory/user-in-memory.repository.ts:48-53 | exactly the users whose name equals it ignoring case, in order, each as often as it occurs |
| UserRepository.EmptyFilterKeepsAll | dynamic-price-project/src/core/user/infra/db/in-memory/user-in-memory.repository.ts:16-28 | a filter with no or empty parts keeps every user |
| UserRepository.FilterConjunctive | dynamic-price-project/src/core/user/infra/db/in-memory/user-in-memory.repository.ts:20-28 | a user matches exactly when it matches each given part |
| UserRepository.NameFilterIsSubstring | dynamic-price-project/src/core/user/infra/db/in-memory/user-in-memory.repository.ts:21-23 | a name filter matches exactly the names containing it, ignoring case |
| CreateUser.CreateUserUseCase.Execute | dynamic-price-project/src/core/user/application/use-cases/create-user/create-user.use-case.ts:13-23 | fails with the user's errors and stores nothing exactly when the user is invalid; otherwise stores it and answers its output |
| ProductAssembler.FromCreateDto | code-refactor/refactored.ts:132-139 | exactly title, description, price and category are copied |
| ProductAssembler.Merge | code-refactor/refactored.ts:141-147 | each field takes the request's value when it is truthy and keeps the old one otherwise |
| ProductAssembler.MergeIdempotent | code-refactor/refactored.ts:141-147 | applying the same update twice is the same as once |
| ProductAssembler.FalsyUpdateKeeps | code-refactor/refactored.ts:141-147 | an update of only falsy values, a zero price or empty texts included, changes nothing |
| ProductAssembler.DisjointUpdatesCommute | code-refactor/refactored.ts:141-147 | updates that set different fields can be applied in either order |
| ProductAssembler.FromUpdateDto | code-refactor/refactored.ts:141-147 | the same product object is returned, its fields merged with the request |
| ProductService.Transact | code-refactor/refactored.ts:157-172 | succeeds exactly when the body succeeds and the commit does, with the body's value; otherwise the mapped error unless the abort fails |
| ProductService.EnvelopeShape | code-refactor/refactored.ts:157-227 | one transaction started first, the session ended exactly once and last, a commit only after a successful body, an abort exactly when the call fails |
| ProductService.BodyErrorRemapped | code-refactor/refactored.ts:166-168 | any failure of the body surfaces as the call's own error |
| ProductService.MissingUpdateIsBadRequest | code-refactor/refactored.ts:195-205 | updating a missing product fails with the update error, a 400, not NOT_FOUND |
| ProductService.MissingDeleteIsBadRequest | code-refactor/refactored.ts:216-223 | deleting nothing aborts, does not commit and fails with the deletion error |
| ProductService.ClientSession.Commit | code-refactor/refactored.ts:164 | the commit is recorded and succeeds unless the session's commit fails |
| ProductService.ClientSession.Abort | code-refactor/refactored.ts:167 | the abort is recorded and succeeds unless the session's abort fails |
| ProductService.ProductRepository.FindById | code-refactor/refactored.ts:97-99 | an error exactly when the lookup fails, otherwise the stored product with the id, if any |
| ProductService.ProductRepository.Save | code-refactor/refactored.ts:101-103 | a successful save records the product's current fields; a failed one records nothing |
| ProductService.ProductServiceImpl.CreateProduct | code-refactor/refactored.ts:157-172 | the session steps and the result are those of the envelope around storing the request's fields |
| ProductService.ProductServiceImpl.GetProducts | code-refactor/refactored.ts:174-180 | the products found, PRODUCTS_NOT_FOUND when there are none, or the query's error |
| ProductService.ProductServiceImpl.GetProduct | code-refactor/refactored.ts:182-188 | the product with the id, PRODUCT_NOT_FOUND when there is none, or the query's error |
| ProductService.ProductServiceImpl.UpdateProduct | code-refactor/refactored.ts:190-209 | the envelope's steps and result; the found product's fields merged with the request and saved |
| ProductService.ProductServiceImpl.DeleteProduct | code-refactor/refactored.ts:211-227 | the envelope's steps and result, where deleting nothing is a failure of the body |

## Left out

- Concurrency: the event listing resolves its items with `Promise.all`. The model resolves them one after another, in page order. When several items fail, the reported error is the first one in page order; the source reports whichever rejects first.
- The same event object appearing twice on a page is allowed. Its final price is the one resolved last, and `FinalPriceDistinct` covers pages without repeats.
- Prices are integers. `parseFloat` is an uninterpreted parameter from the cached or fetched text to a price, so NaN and fractional prices are not modelled.
- The HTTP call to the fallback price source, its URL and the logger are not modelled. The source is an oracle that either has a price for an event or fails.
- Lower-casing covers ASCII letters only. JavaScript's `toLowerCase` also folds other scripts.
- Paging and search-result envelopes are not part of this model: `SearchParams`, `SearchResult`, the paging output mapper and the base repository's own comparator. Sorting is modelled as a sort by the field, with texts compared code point by code point and numbers by value. The order of equal keys is not fixed.
- Sorting.LexLe: JavaScript compares strings by UTF-16 code units, but the model compares code points. The two orders differ only between a character above U+FFFF and one from U+E000 to U+FFFF. For example, JavaScript puts U+1F600 before U+FF61, and the model puts it after.
- The repositories' `insert`, `update`, `delete` and `findById` live in the base class, which is not part of this model. The model's `Insert` appends to the items, and nothing is proved about it beyond that.
- Mongo repositories, Mongoose schemas and the ticket persistence mapper are not part of this model.
- The class-validator library is not part of this model. The model assumes that naming a field checks every rule declared on that property. The event rules on title, date and location declare matching groups. The event description's `@IsOptional()` (event.validator.ts:11) declares no group, so the model treats it as applying when the description group is checked. The ticket and user rules declare no groups, and class-validator skips group-less rules when groups are passed, so for them this is an assumption of the model rather than the library's behaviour. E-mail syntax is a parameter. Ticket prices are integers, so the "Price must be a number" rule never fails.
- EventValidator.DescriptionMessages: reports nothing for an absent description. Under class-validator, validating with the `description` group skips the group-less `@IsOptional()`, so `@MaxLength(1000)` runs on a null description and reports it. The model does not reproduce this library behaviour.
- ListEvents.RedisService: the expiry of each cached price is recorded but never takes effect, since the model has no clock. The cache lemmas (`SecondResolveHitsCache`, `Execute` from any cache state) therefore describe behaviour within the hour after a write. After the hour Redis would drop the key and the next resolution would be a miss.
- Notification: only appending errors and asking whether there are any are modelled. The shared notification class is not part of this model and may merge duplicate messages. In the model, `Event.create` validates twice and records its errors twice.
- `Notification.toJSON` grouping is not modelled.
- Event test, code-vs-test disagreement: the event test (event.aggregate.spec.ts:196-213) expects a description over 1000 characters to be reported on creation. The code's default groups are title, date and location, so the description is not checked. The model follows the code.
- The event test's expectation that validation runs once on creation conflicts with the constructor and `create` both validating; the model follows the code.
- The user persistence mapper's identifier format check is not modelled. Stored ids are taken as they are, and the record's `_id` and `id` are one field.
- Dates print through a parameter, since JavaScript's `Date` to-string conversion is not modelled. Arrays and functions as filter values are not modelled; a filter value is undefined, null, a string, a number, a boolean, a date or an object.
- The event repository's search is a parameter of `Execute`: the event repository is an interface whose implementations are not part of this model.
- The listing's input criteria never reach the search. `execute` hands the input to `EventSearchParams.create`. The input declares title, dateFrom, dateTo, location, priceMin, priceMax, page, perPage, sort and sortDir, but no `filter`, so the stored filter is always null. The model follows the code, and `InputHasNoFilter` states it. The paging and sort properties go to the `SearchParams` base class, which is not part of this model.
- Identifier generation and the clock are parameters (a fresh id and `now`).
- ProductService: `startSession` failing before the envelope is not modelled. The request validation pipe, the interceptor, the controller, the exception's timestamp and the Mongoose queries of the product repository are not modelled; the repository's answers are oracles.
- ProductService.ProductRepository: the store's state across calls is not modelled. The stored products are a fixed map of oracles, so a committed create does not make the product visible to later lookups, and a delete does not remove it. An update merges the request into the same stored object that later lookups return, and that object stays merged after an abort: the rollback of the transaction is not applied to it. Each operation's contract describes one call.
- ProductService.ProductServiceImpl.GetProducts: the filters are passed to the repository unread, because the query they build is a Mongoose query.
