# essential-api task and authentication core, in Dafny

This project models the task-management and authentication core of the
essential-api repository. The repository has an Express backend and an
Angular frontend; both are modelled here.

**Backend.**
- `task_schema.dfy`: the Mongoose task schema, meaning its field rules, defaults, casts and the messages joined into a validation error.
- `mongo_store.dfy`: the MongoDB task service (`TaskMongoService`). It is a class `TaskStore` whose documents live in a map plus their natural order; its reads are functions and `create`/`update`/`delete` are methods.
- `sql_store.dfy`: the relational task service (`TaskService`). It is a class `TaskTable` holding its rows and an AUTO_INCREMENT counter; the dynamic `UPDATE` statement is built by successive pushes.
- `task_query.dfy`: how a listing request's query string selects a listing.
- `task_controller.dfy` and `task_mongo_controller.dfy`: the two task controllers, each status code and message included.
- `validation.dfy`: the express-validator chains for create and update.
- `error_handler.dfy`: the error middleware.
- `jwt.dfy`: token issuing, verification and the `Authorization` header parser.
- `auth_middleware.dfy`: `authenticate`, `requireAdmin` and `requireOwnershipOrAdmin`.

**Frontend.**
- `client_task_service.dfy`: the task service's client-side task cache. It is a class whose `tasks` sequence is reassigned by every operation.
- `client_auth_service.dfy`: the authentication session, meaning local storage, the current user, the logged-in flag and navigations.
- `client_error_interceptor.dfy` and `client_auth_interceptor.dfy`: the two HTTP interceptors. The second keeps its refresh flag and refresh subject as fields.
- `client_http.dfy`: the shape of an HTTP failure as the client sees it.

**Shared helpers.**
- `common.dfy` holds the JavaScript behaviour the code relies on: truthiness of `||`, `parseInt`, `trim`, `split`/`join`, and UTF-16 length.
- `ordering.dfy` holds the BSON sort order of a missing value, a string and a date (a missing value first, dates after strings), and a stable sort.

**What is abstracted.** Clocks, signing, token decoding, the full-text index and the ISO-8601 check are parameters:
- the current time is a number of milliseconds;
- `sign`, `verify` and `decode` are functions;
- `textMatch` and `isIso` are predicates;
- user JSON is a function `userJson`.

An HTTP call's result arrives as an `Outcome` value: what the server delivered, or the failure raised.

## Model

| member | source | states |
|---|---|---|
| Common.ParsePriority | src/utils/validation.ts:15-18 | exactly 'low', 'medium' and 'high' are accepted, each as the priority of that name |
| Common.PriorityNameParses | src/utils/validation.ts:15-18 | every priority's name is accepted back as that priority |
| Common.TrimStartShape | src/models/TaskMongo.ts:27 | trimming the front removes exactly a prefix made of white space and stops at the first other character; the result is empty exactly for an all-space input |
| Common.TrimEndShape | src/models/TaskMongo.ts:27 | trimming the end removes exactly a suffix made of white space and stops at the last other character |
| Common.TrimShape | src/models/TaskMongo.ts:27 | a trimmed string starts and ends with a character other than white space, and is empty exactly for an all-space input |
| Common.TrimIdempotent | src/models/TaskMongo.ts:27 | trimming a trimmed string changes nothing |
| Common.Utf16Length | src/models/TaskMongo.ts:29 | the length counted in UTF-16 units is between the number of characters and twice that |
| Common.Split | src/utils/jwtUtils.ts:54 | splitting gives at least one part and no part contains the separator |
| Common.JoinSplit | src/utils/jwtUtils.ts:54 | joining the parts of a split with the separator gives back the input |
| Common.ParseIntOfDecimal | backend/src/controllers/taskController.ts:103 | the decimal text of a natural number parses back to that number |
| Common.CountPartition | src/services/taskMongoService.ts:224-246 | counts of two conditions that never hold together add up to the count of either |
| Common.CountSplit | src/services/taskMongoService.ts:226-232 | the counts of a condition and its negation add up to the total |
| Ordering.Sort | src/services/taskMongoService.ts:97 | the sorted list is a permutation of the input, ordered by the key in the requested direction |
| Ordering.Window | src/services/taskMongoService.ts:98-99 | skipping then limiting keeps at most the limit, taken in order from the offset onward |
| AuthMiddleware.Authenticate | src/middleware/auth.ts:14-61 | every refusal answers 401; a missing token answers 'Access token is required'; an expired, malformed or otherwise unverifiable token answers 'Token expired', 'Invalid token' or 'Token verification failed'; a failed user lookup answers with its message and a missing or inactive user with 'User not found or inactive'; the request goes on only with a verified token of an active user, and then `req.user` is that stored user |
| AuthMiddleware.AuthenticateAcceptsBearer | src/middleware/auth.ts:20-52 | a `Bearer <token>` header whose token verifies and names an active user is let through as that user |
| AuthMiddleware.AuthenticateRefusesInactive | src/middleware/auth.ts:35-43 | a verified token whose user is missing or inactive is refused with 401 'User not found or inactive' |
| AuthMiddleware.RequireAdmin | src/middleware/auth.ts:64-86 | the request goes on exactly when a user is present with role 'admin'; no user gives 401, another role 403 |
| AuthMiddleware.RequireOwnershipOrAdmin | src/middleware/auth.ts:89-117 | no user gives 401; a non-admin is refused with 403 exactly when a non-empty owner id (route parameter first, else body) differs from the user's id; any other request goes on with the same user |
| AuthMiddleware.AdminPassesOwnership | src/middleware/auth.ts:77-101 | whoever passes `requireAdmin` passes `requireOwnershipOrAdmin` on any resource |
| AuthMiddleware.OwnerPasses | src/middleware/auth.ts:104-115 | the owner of a resource always passes the ownership check |
| AuthMiddleware.ParamsTakePrecedence | src/middleware/auth.ts:105-113 | a non-empty route parameter naming someone else is refused even when the body names the caller |
| AuthMiddleware.OptionalAuth | src/middleware/auth.ts:120-147 | `optionalAuth` always lets the request go on |
| AuthMiddleware.OptionalAuthAgrees | src/middleware/auth.ts:120-147 | `optionalAuth` sets the user `authenticate` accepts and no user wherever `authenticate` refuses |
| ErrorHandler.Handle | src/middleware/errorHandler.ts:8-49 | a message containing 'duplicate' gives 400 'Duplicate field value entered' whatever the error's class; otherwise a CastError gives 404 'Resource not found', a ValidationError 400 'Validation Error', and any other error its own non-zero status code (else 500) and its own non-empty message (else 'Server Error'); the stack is sent only in development |
| ErrorHandler.HandleStatus | src/middleware/errorHandler.ts:21-38 | the reply status is 400, 404, 500 or the error's own non-zero code |
| ErrorHandler.DuplicateWins | src/middleware/errorHandler.ts:32-36 | any message with 'duplicate' inside it gives 400 'Duplicate field value entered' |
| ErrorHandler.HandleMessageNonEmpty | src/middleware/errorHandler.ts:40 | the reply never carries an empty message |
| Jwt.ExtractTokenIff | src/utils/jwtUtils.ts:51-58 | a token is extracted from a header exactly when the header is 'Bearer ' followed by that token, which is non-empty and has no space |
| Jwt.ExtractTokenRejects | src/utils/jwtUtils.ts:51-58 | 'Bearer ' with nothing after it and a lower-case 'bearer' scheme yield no token |
| Jwt.GenerateTokenPairAsWritten | src/utils/jwtUtils.ts:8-15 | as written, the access token signs `{userId, email, role}` and the refresh token `{userId}`, neither with an expiry, and the pair reports '7d' |
| Jwt.GenerateTokenPair | src/utils/jwtUtils.ts:61-67 | the corrected pair: the access token expires seven days after the second of issue; the refresh token and '7d' are as written |
| Jwt.Seconds | src/utils/jwtUtils.ts:43 | the current second is the largest whole second not after the current millisecond |
| Jwt.IssuedTokensCountAsExpired | src/utils/jwtUtils.ts:38-48 | a token of the as-written pair has no `exp`, so `isTokenExpired` calls it expired at every moment |
| Jwt.ExpiryBoundary | src/utils/jwtUtils.ts:38-48 | a token with a non-zero `exp` is live exactly until the end of second `exp` |
| Jwt.IssuedAccessTokenLivesSevenDays | src/utils/jwtUtils.ts:61-67 | a corrected access token is live exactly until the end of the second seven days after its second of issue, and in particular for seven days after its issue |
| Jwt.VerifyToken | src/utils/jwtUtils.ts:18-30 | verification succeeds exactly when the library verifies the token, with its payload; an expired token gives 'Token expired', a malformed one 'Invalid token', anything else 'Token verification failed' |
| Jwt.VerifyMessagesDistinct | src/utils/jwtUtils.ts:21-28 | two failed verifications give the same message exactly when they failed for the same reason |
| Validation.CharLength | src/utils/validation.ts:7 | the length `isLength` measures never exceeds the number of characters |
| Validation.CharLengthPlain | src/utils/validation.ts:7 | a string with no variation selectors has its character count as its length |
| Validation.CharLengthZero | src/utils/validation.ts:7 | the length is zero exactly for strings made only of variation selectors |
| Validation.Check | src/utils/validation.ts:4-23 | a validator adds no error exactly when it passes, and its errors name its field |
| Validation.OptionalCheck | src/utils/validation.ts:10-23 | an optional chain adds no error exactly when the field is undefined or passes |
| Validation.PriorityNamesParse | src/utils/validation.ts:15-18 | the accepted priority strings are exactly the names of the three priority levels |
| Validation.CreateErrorsEmptyIffAcceptable | src/utils/validation.ts:3-24 | create validation reports nothing exactly when the title is present with length 1 to 255, the description has at most 1000, the priority is a level name and the due date is ISO 8601 |
| Validation.UpdateErrorsEmptyIffAcceptable | src/utils/validation.ts:26-51 | update validation reports nothing exactly when every present field is acceptable (completed a boolean string); the empty body is accepted |
| Validation.MissingTitleReportsBoth | src/utils/validation.ts:4-8 | a missing title reports 'Title is required' and then the length message, before any other error |
| Validation.SelectorTitleFailsLengthOnly | src/utils/validation.ts:4-8 | a title made of one variation selector passes `notEmpty` and fails only the length check |
| Validation.CreateAcceptableIsUpdateAcceptable | src/utils/validation.ts:3-51 | a body accepted on create is accepted on update |
| Validation.ErrorPaths | src/utils/validation.ts:3-51 | every reported error names a field its chain checks |
| TaskSchema.RequiredMaxViolation | src/models/TaskMongo.ts:24-30 | the title path fails exactly unless it is present and its trimmed UTF-16 length is between 1 and the maximum |
| TaskSchema.MaxViolation | src/models/TaskMongo.ts:31-35 | an optional trimmed string path fails exactly when it is present and longer than its maximum |
| TaskSchema.EnumViolation | src/models/TaskMongo.ts:40-44 | the priority path fails exactly when it is present and not 'low', 'medium' or 'high' |
| TaskSchema.DueDateViolation | src/models/TaskMongo.ts:45-53 | the due date fails exactly when it is set and earlier than now |
| TaskSchema.At | src/models/TaskMongo.ts:23-88 | a path reports a violation exactly when its validator fails |
| TaskSchema.TagViolation | src/models/TaskMongo.ts:59-63 | a tag fails exactly when its trimmed length exceeds 20 |
| TaskSchema.RequiredText | src/models/TaskMongo.ts:69-88 | a required attachment text fails exactly when it is absent or empty |
| TaskSchema.SizeViolation | src/models/TaskMongo.ts:79-83 | an attachment size fails exactly when it is absent or negative |
| TaskSchema.OneAttachmentViolations | src/models/TaskMongo.ts:69-88 | an attachment reports nothing exactly when its name (trimmed), url and type are non-empty and its size is at least 0 |
| TaskSchema.AttachmentViolation | src/models/TaskMongo.ts:69-88 | the same, for the attachment at its index in the array |
| TaskSchema.ViolationsEmptyIffAcceptable | src/models/TaskMongo.ts:23-88 | a new document reports no violation exactly when it meets every path's constraint |
| TaskSchema.ValidationFailedMessage | src/models/TaskMongo.ts:130 | a validation error message starts with '<model> validation failed: ' for a document's validation ('Task' here) and with 'Validation failed: ' for a query update's validation, which has no model |
| TaskSchema.CastAttachment | src/models/TaskMongo.ts:69-88 | a valid attachment draft casts to a stored attachment that meets the schema |
| TaskSchema.TrimAll | src/models/TaskMongo.ts:59-63 | the `trim` setter trims every tag, one for one |
| TaskSchema.CastAttachments | src/models/TaskMongo.ts:69-88 | each attachment of a valid array is cast one for one, and every cast attachment meets the schema |
| TaskSchema.Cast | src/models/TaskMongo.ts:23-117 | a valid draft casts to a well-formed document that is not overdue at the moment it is saved |
| TaskSchema.Build | src/models/TaskMongo.ts:23-99 | saving fails exactly when a constraint is broken, reporting every failing path; a saved document is well formed, not overdue, keeps the id and owner, has its title, tags, description and category trimmed and each attachment cast one for one, completed only when given as true, priority 'medium' by default, and both timestamps at now |
| TaskSchema.PreSave | src/models/TaskMongo.ts:119-128 | saving fails with 'User not found' exactly when `userId` was modified and names no user |
| TaskSchema.IdKey | src/services/taskMongoService.ts:118-129 | the cast of an id that `ObjectId.isValid` accepts: 24 lower-case hexadecimal digits, each the lower-case form of the given digit |
| TaskSchema.IdKeyOfKey | src/services/taskMongoService.ts:118-129 | an id already in the lower-case form is valid and casts to itself |
| TaskSchema.IdKeyIdempotent | src/services/taskMongoService.ts:118-129 | casting a cast id again changes nothing |
| TaskSchema.PatchViolationsEmptyIffAcceptable | src/services/taskMongoService.ts:131-155 | an update, validated only on the paths it sets (its attachments included, each checked as on creation), reports nothing exactly when each of those paths is acceptable |
| TaskSchema.ApplyPatch | src/services/taskMongoService.ts:131-155 | an accepted update keeps the id and the creation time and moves `updatedAt` to now |
| TaskSchema.OverlayAcceptable | src/services/taskMongoService.ts:131-155 | two updates the validators accept at the same time overlay to a body they accept |
| TaskSchema.SuccessiveUpdatesCompose | src/services/taskMongoService.ts:131-155 | two successive accepted updates leave the document as one update with the second's keys over the first's would: per key the last written value wins, and the timestamp is the second's |
| TaskSchema.RepeatedUpdateIsIdempotent | src/services/taskMongoService.ts:131-155 | sending the same accepted update again changes only `updatedAt` |
| TaskSchema.DisjointUpdatesCommute | src/services/taskMongoService.ts:131-155 | two accepted updates on different keys give the same document in either order |
| TaskSchema.ApplyPatchKeepsWellFormed | src/services/taskMongoService.ts:131-155 | an accepted update of a well-formed document is well formed |
| TaskSchema.EmptyPatchTouchesOnlyTimestamp | src/services/taskMongoService.ts:131-155 | an update without keys changes only `updatedAt` |
| MongoStore.BuildQuery | src/services/taskMongoService.ts:64-78 | the query is always scoped to the caller |
| MongoStore.BuildQuerySelectsMatches | src/services/taskMongoService.ts:64-78 | the query selects a document exactly when it is the caller's and passes every filter that was set (a completed flag, a priority, a non-empty search) |
| MongoStore.OwnSortField | src/services/taskMongoService.ts:80-86 | the table's own entries map each of the five sortable names to that field |
| MongoStore.SortFieldAsWritten | src/services/taskMongoService.ts:88 | as written, an inherited property name such as 'toString' bypasses the 'createdAt' fallback and names a field no document has |
| MongoStore.SortFieldOf | src/services/taskMongoService.ts:80-88 | the intended lookup: one of the five sortable names gives that field, any other name 'createdAt' |
| MongoStore.MissingKeyAdmitsEveryOrder | src/services/taskMongoService.ts:95-99 | sorting on a field no document has ties every pair, so every order of the documents is an admissible result |
| MongoStore.SortLookupsDifferOnInheritedNames | src/services/taskMongoService.ts:80-88 | the as-written and the corrected sort-key lookups agree on every name except the ones a plain object inherits, where they differ |
| MongoStore.GetAllTasks | src/services/taskMongoService.ts:44-50 | the listing holds exactly the caller's tasks, each as often as stored, newest first |
| MongoStore.GetTasksByStatus | src/services/taskMongoService.ts:170-179 | exactly the caller's tasks with that completed flag, each as often as stored (same multiset as the filtered collection), newest first |
| MongoStore.GetTasksByPriority | src/services/taskMongoService.ts:181-193 | exactly the caller's tasks with that priority, each as often as stored, newest first |
| MongoStore.GetTasksByCategory | src/services/taskMongoService.ts:195-204 | exactly the caller's tasks in that category, each as often as stored, newest first |
| MongoStore.GetOverdueTasks | src/services/taskMongoService.ts:206-218 | exactly the caller's overdue tasks, as many as the overdue count, soonest due date first |
| MongoStore.OverdueSoonestFirst | src/services/taskMongoService.ts:206-218 | every listed task has a due date before now, no later than the one after it |
| MongoStore.TotalPages | src/services/taskMongoService.ts:101 | the page count is the least number of pages of `limit` tasks that hold the total |
| MongoStore.PageOf | src/services/taskMongoService.ts:91-116 | a page is the window at offset (page - 1) * limit of the sorted selection, holds at most `limit` tasks, and carries the total, the page count and both flags |
| MongoStore.GetTasksPaginated | src/services/taskMongoService.ts:52-116 | (corrected: sorts by `SortFieldOf`, see Findings) with defaults page 1 and limit 10, the page holds at most `limit` of the caller's tasks that pass the filters, in the requested order, at offset (page - 1) * limit; the total counts every matching task; there is a next page exactly when page < totalPages and a previous one exactly when page > 1 |
| MongoStore.PaginationDefaults | src/services/taskMongoService.ts:57-62 | omitted options mean page 1, limit 10, sorted by 'createdAt' descending |
| MongoStore.HasNextIffMoreTasks | src/services/taskMongoService.ts:101-102 | there is a next page exactly when the tasks up to the end of this page are fewer than the total |
| MongoStore.PageBeforeLastIsFull | src/services/taskMongoService.ts:93-102 | a page followed by another one is full |
| MongoStore.GetTaskStats | src/services/taskMongoService.ts:220-269 | (corrected) the total counts the caller's tasks; completed, pending and each priority count exactly the caller's tasks with that value, completed and pending adding up to the total and so do the three priorities; the overdue count is that of the overdue listing and at most the pending count; a caller without tasks gets all zeros |
| MongoStore.StatsAsWritten | src/services/taskMongoService.ts:220-269 | as written, the overdue count uses `$lt` on the due date; every other count agrees with the corrected statistics |
| MongoStore.StatsAsWrittenCountsUndated | src/services/taskMongoService.ts:233-246 | the as-written overdue count exceeds the overdue listing by exactly the caller's pending tasks without a due date |
| MongoStore.StatsOverdueCounterexample | src/services/taskMongoService.ts:233-246 | one pending task without a due date is absent from the overdue listing yet counted overdue by the as-written statistics |
| MongoStore.SortFallbackCounterexample | src/services/taskMongoService.ts:88-99 | with sortBy 'toString' the as-written key ties every pair, so an oldest-first listing is admissible; the intended fallback admits newest first only |
| MongoStore.DraftOf | src/services/taskMongoService.ts:32-35 | the draft carries the caller as its owner |
| MongoStore.InsertKeepsInvariant | src/services/taskMongoService.ts:32-41 | saving a new well-formed document keeps the collection invariant and appends it to the natural order |
| MongoStore.ReplaceKeepsInvariant | src/services/taskMongoService.ts:131-155 | replacing a document by a well-formed one keeps the collection invariant |
| MongoStore.RemoveKeepsInvariant | src/services/taskMongoService.ts:157-168 | deleting a document and dropping its id from the natural order keeps the collection invariant |
| MongoStore.RemoveDropsFromListing | src/services/taskMongoService.ts:157-168 | after a deletion the listing in natural order is the old one with exactly the deleted document filtered out |
| MongoStore.TaskStore.constructor | src/services/taskMongoService.ts:25 | an empty collection over a given set of users |
| MongoStore.TaskStore.Docs | src/services/taskMongoService.ts:44-50 | every stored document is well formed |
| MongoStore.TaskStore.GetTaskById | src/services/taskMongoService.ts:118-129 | a task is found exactly when the id is a valid ObjectId, in either case, whose cast (`IdKey`) names one of the caller's tasks |
| MongoStore.AnySpellingFindsSameTask | src/services/taskMongoService.ts:118-129 | an id in upper, lower or mixed case finds exactly what its cast finds |
| MongoStore.TaskStore.Insert | src/services/taskMongoService.ts:38 | saving stores the document under its id and appends it to the listing |
| MongoStore.TaskStore.CreateTask | src/services/taskMongoService.ts:26-42 | an unknown owner fails with 'User not found'; otherwise a valid draft is stored and appended under the new id, and an invalid one fails with the validation message and stores nothing |
| MongoStore.TaskStore.UpdateTask | src/services/taskMongoService.ts:131-155 | a malformed id gives null; a failing update is rejected with its validation message, whether or not the task exists; otherwise the caller's task named by the cast id is updated as ApplyPatch says (owner and attachments included, the new owner need not exist), and anyone else's is not found; nothing else changes |
| MongoStore.TaskStore.Remove | src/services/taskMongoService.ts:157-168 | removing drops exactly that document from the collection and its id from the natural order, keeping the invariant (its effect on the listing is RemoveDropsFromListing) |
| MongoStore.TaskStore.DeleteTask | src/services/taskMongoService.ts:157-168 | the result is true exactly when the id's cast names one of the caller's tasks, which is then removed; otherwise nothing changes |
| SqlStore.SetValues | src/services/taskService.ts:86-112 | one bound value per column of the SET list |
| SqlStore.SetColumnsShape | src/services/taskService.ts:86-116 | the SET list names exactly the defined fields, each once, in the order title, description, completed, priority, due date, binds each its own value, and is empty exactly when no field is defined |
| SqlStore.OrderedAppend | src/services/taskService.ts:89-112 | the columns of the SET list appear in the fixed order |
| SqlStore.ValueAt | src/services/taskService.ts:89-112 | each bound value is the one the input defines for its column |
| SqlStore.AssignAll | src/services/taskService.ts:120-126 | running a SET list never changes a row's id or timestamps |
| SqlStore.ExecuteUpdate | src/services/taskService.ts:118-126 | the UPDATE changes exactly the rows whose id is the last bound value, applying the SET list to each |
| SqlStore.AssignAllAppend | src/services/taskService.ts:120-126 | a SET list runs as its first part followed by its second |
| SqlStore.AssignOnce | src/services/taskService.ts:89-112 | one optional assignment writes its column exactly when the field is defined |
| SqlStore.AssignSetListMerges | src/services/taskService.ts:86-126 | the SET list built from an input writes exactly the defined fields and keeps every other column |
| SqlStore.Find | src/services/taskService.ts:55-77 | a row is found exactly when some row has the id, and it is that row |
| SqlStore.FindUnique | src/services/taskService.ts:55-77 | with unique keys, looking a row's id up gives that row |
| SqlStore.TaskTable.constructor | src/services/taskService.ts:5 | an empty table whose first AUTO_INCREMENT value is 1 |
| SqlStore.TaskTable.GetTaskById | src/services/taskService.ts:55-77 | null exactly when no row has the id, else the row with it |
| SqlStore.WholeSecond | src/config/database.ts:43-44 | a `TIMESTAMP` column keeps the start of the second an instant falls in: a multiple of 1000 milliseconds, at most the instant and less than a second before it |
| SqlStore.WholeSecondTiesSameSecond | src/config/database.ts:43-44 | two instants are stored as the same timestamp exactly when they fall in the same second |
| SqlStore.NewRow | src/services/taskService.ts:7-19 | the inserted row has the given title, description and due date (null when absent), priority 'medium' unless given, completed false, and both timestamps equal to the whole second of now (src/config/database.ts:43-44) |
| SqlStore.TaskTable.CreateTask | src/services/taskService.ts:7-32 | the new row is `NewRow` under the next id; it is appended and read back by that id |
| SqlStore.TaskTable.BuildUpdateStatement | src/services/taskService.ts:86-118 | the pushes give the SET list of the defined fields and their values, followed by the id |
| SqlStore.TaskTable.UpdateTask | src/services/taskService.ts:80-129 | an unknown id gives null and changes nothing; an input without defined fields changes nothing; otherwise the row is replaced by its merge with the input and returned |
| SqlStore.TaskTable.DeleteTask | src/services/taskService.ts:132-137 | the result is true exactly when a row had the id; the rows with the id are removed and nothing else changes |
| SqlStore.TaskTable.GetAllTasks | src/services/taskService.ts:35-52 | a permutation of every row, newest created first |
| SqlStore.TaskTable.GetTasksByStatus | src/services/taskService.ts:140-158 | exactly the rows with that completed value, each as often as in the table, newest first |
| SqlStore.TaskTable.GetTasksByPriority | src/services/taskService.ts:161-179 | exactly the rows with that priority, each as often as in the table, newest first |
| SqlStore.MergeWhere | src/services/taskService.ts:120-128 | a partial update replaces each row with the key by its merge with the input and keeps every other row |
| SqlStore.ExecuteMerges | src/services/taskService.ts:86-126 | the statement built for an input and a key performs exactly that partial update |
| SqlStore.MergeWhereKeeps | src/services/taskService.ts:80-129 | a partial update keeps ids unique and below the next id; reading the key back gives the merged row; an input without defined fields changes nothing |
| SqlStore.MergeWhereKeepsIds | src/services/taskService.ts:120-124 | a partial update keeps every row's id |
| SqlStore.MergeNothing | src/services/taskService.ts:114-116 | an input without defined fields leaves every row as it was |
| SqlStore.DeleteKeepsInvariant | src/services/taskService.ts:132-137 | deleting by key keeps the ids unique; a row is affected exactly when one has the key; with none, nothing changes |
| SqlStore.CountFinds | src/services/taskService.ts:136 | `affectedRows` is positive exactly when a row has the id |
| SqlStore.FilterKeepsUnique | src/services/taskService.ts:132-137 | removing rows keeps the ids unique |
| TaskQuery.NumberOr | backend/src/controllers/taskController.ts:40-41 | an absent or empty value gives the default, any other value what `parseInt` makes of it |
| TaskQuery.TextOr | backend/src/controllers/taskController.ts:42-43 | an absent or empty value gives the non-empty default, any other value itself |
| TaskQuery.RequestOf | backend/src/controllers/taskController.ts:39-44 | page 1, limit 10, 'createdAt' and 'DESC' where the query gives no value; a given page or limit is parsed with `parseInt` |
| TaskQuery.StatusFilter | backend/src/controllers/taskController.ts:48-52 | 'completed' filters on completed tasks and 'pending' on pending ones; any other status sets no condition |
| TaskQuery.PriorityFilter | backend/src/controllers/taskController.ts:54-56 | a priority filters exactly when it is 'low', 'medium' or 'high' |
| TaskQuery.Filters | backend/src/controllers/taskController.ts:46-60 | the filters hold the status and priority conditions and the search text when it is non-empty |
| TaskQuery.Plan | backend/src/controllers/taskMongoController.ts:63-113 | a request is paginated exactly when it has a non-empty page or limit; otherwise status decides, then priority, then (document controller only) category, else all tasks |
| TaskQuery.OptionsOf | src/services/taskMongoService.ts:52-62 | the options reach the document service exactly when page and limit are numbers of at least 1 |
| TaskQuery.UnpaginatedWithoutPageOrLimit | backend/src/controllers/taskController.ts:38 | a request without page and limit is never paginated |
| TaskQuery.LimitAlonePaginates | backend/src/controllers/taskController.ts:38-44 | a decimal limit alone paginates with page 1 and that limit |
| TaskQuery.PaginatedIgnoresCategory | backend/src/controllers/taskMongoController.ts:63-99 | in paginated mode the category plays no part |
| TaskQuery.ControllersAgreeWithoutCategory | backend/src/controllers/taskMongoController.ts:101-113 | without a category both controllers choose the same listing |
| TaskQuery.UnknownValuesIgnored | backend/src/controllers/taskController.ts:74-82 | an unknown status or priority is ignored and all tasks are listed |
| TaskController.TaskIdOf | backend/src/controllers/taskController.ts:93-111 | an absent or empty id gives 400 'Task ID is required', one `parseInt` cannot read 400 'Invalid task ID'; otherwise the parsed number |
| TaskController.TaskIdOfDecimal | backend/src/controllers/taskController.ts:103 | the decimal rendering of an id is read back as that id |
| TaskController.CreateInputOf | backend/src/controllers/taskController.ts:18 | the create input keeps the title and carries a priority exactly when the body names a valid one |
| TaskController.UpdateInputOf | backend/src/controllers/taskController.ts:161 | each field of the update input is defined exactly when the body has it |
| TaskController.CompletedOnlyFlips | backend/src/controllers/taskController.ts:236-274 | marking a task writes its completed column and nothing else |
| TaskController.PlanRows | backend/src/controllers/taskController.ts:72-82 | the listing holds exactly the rows the plan selects, each as often as in the table, newest first |
| TaskController.ListTasks | backend/src/controllers/taskController.ts:27-90 | a paginated request yields the unrun call with its options and filters, with no status claimed; otherwise 200 with exactly the selected rows, newest first, with `count` their number |
| TaskController.GetTask | backend/src/controllers/taskController.ts:92-128 | the id errors first, then 404 when no row has the id, else 200 with that row |
| TaskController.CreateTask | backend/src/controllers/taskController.ts:7-25 | validation errors give 400 with those errors and no insert; otherwise 201 with the appended row, which is `NewRow` of the body's fields under the next id (defaults included) and can be read back by its id |
| TaskController.UpdateTask | backend/src/controllers/taskController.ts:130-176 | the id errors, then the validation errors, change nothing; an unknown id gives 404; otherwise 200 with the row merged with the body, which is what the table now holds |
| TaskController.DeleteTask | backend/src/controllers/taskController.ts:178-213 | the id errors change nothing; otherwise the row with the id is removed, with 200 when there was one and 404 when not |
| TaskController.MarkTask | backend/src/controllers/taskController.ts:215-289 | complete and uncomplete: the id errors first, 404 for an unknown id, else 200 with the row whose completed flag alone is set |
| TaskMongoController.CreateView | backend/src/controllers/taskMongoController.ts:17 | the validator sees the body's title, description and priority as sent |
| TaskMongoController.CreateTask | backend/src/controllers/taskMongoController.ts:8-41 | 401 without a caller; 400 with the validation errors; 400 'User not found' for an unknown owner; 400 with the schema's message for an invalid document; otherwise 201 with the new task, appended to the caller's tasks; every refusal stores nothing |
| TaskMongoController.PlanDocs | backend/src/controllers/taskMongoController.ts:101-113 | the listing holds exactly the caller's tasks the plan selects, each as often as stored, newest first |
| TaskMongoController.ListTasks | backend/src/controllers/taskMongoController.ts:43-121 | (corrected: the page is sorted by `SortFieldOf`, see Findings) 401 without a caller; a paginated request gives 200 and the page of the caller's tasks that match the filters; a page or limit below 1 yields the unrun call, with no status claimed; otherwise 200 and the chosen listing with `count` its length |
| TaskMongoController.PaginatedListingIsOwnerScoped | backend/src/controllers/taskMongoController.ts:87-91 | a paginated listing never shows another user's task |
| TaskMongoController.GetTask | backend/src/controllers/taskMongoController.ts:123-157 | 401 without a caller, 400 for an empty id, 404 unless the id's cast names one of the caller's tasks, else 200 with that task |
| TaskMongoController.AnySpellingGetsSameReply | backend/src/controllers/taskMongoController.ts:132-157 | an id in any case gets the same reply as its cast |
| TaskMongoController.OthersTasksAreNotFound | backend/src/controllers/taskMongoController.ts:142-150 | another user's task is reported exactly like a missing one |
| TaskMongoController.ThrownValidation | src/middleware/errorHandler.ts:21-42 | a schema rejection thrown from an update is answered 400 by the error middleware |
| TaskMongoController.UpdateTask | backend/src/controllers/taskMongoController.ts:159-203 | 401, then 400 for an empty id, then 400 with the validation errors, all without change; a malformed or foreign id gives 404; a rejected document goes to the error middleware; otherwise 200 with the updated task (body keys written as ApplyPatch says), which replaces the stored one |
| TaskMongoController.DeleteTask | backend/src/controllers/taskMongoController.ts:205-238 | 401, then 400 for an empty id; 200 when the caller's task existed and is now gone, else 404 and nothing changes |
| TaskMongoController.CompletedPatchFlips | backend/src/controllers/taskMongoController.ts:259-295 | marking a task is always acceptable and sets only `completed` and `updatedAt` |
| TaskMongoController.MarkTask | backend/src/controllers/taskMongoController.ts:240-310 | 401, then 400 for an empty id; the caller's task gets the new completed flag and update time, with 200; otherwise 404 and nothing changes |
| TaskMongoController.OverdueTasks | backend/src/controllers/taskMongoController.ts:312-329 | 401 without a caller; otherwise exactly the caller's overdue tasks, soonest due first, with `count` their number |
| TaskMongoController.TaskStatistics | backend/src/controllers/taskMongoController.ts:331-347 | (corrected: forwards the corrected `GetTaskStats`, see Findings) 401 without a caller; otherwise the caller's totals, completed and pending counted from the caller's tasks, and the overdue count that of the overdue listing |
| TaskMongoController.StatsAgreeWithOverdueListing | backend/src/controllers/taskMongoController.ts:312-347 | (corrected, see Findings) at the same instant the corrected statistics' overdue count equals the overdue listing's `count` |
| TaskMongoController.TaskStatisticsAsWritten | backend/src/controllers/taskMongoController.ts:331-347 | 401 without a caller; otherwise 200 with the as-written statistics, whose overdue count is that of the `$lt` condition and whose other fields equal the corrected ones |
| TaskMongoController.StatsAsWrittenExceedOverdueListing | backend/src/controllers/taskMongoController.ts:312-347 | at the same instant the as-written statistics' overdue count is the overdue listing's `count` plus the caller's pending tasks without a due date |
| ClientTaskService.SetParam | frontend/src/app/core/services/task.service.ts:38 | after setting a parameter it is present with the new value; a name not yet present is appended; nothing else is added |
| ClientTaskService.BuildParams | frontend/src/app/core/services/task.service.ts:33-41 | without filters no parameter is sent; otherwise the parameters are those set by visiting the entries in order |
| ClientTaskService.RenderedNames | frontend/src/app/core/services/task.service.ts:36-40 | every sent parameter is named after a filter key |
| ClientTaskService.SentParamsAreRenderedEntries | frontend/src/app/core/services/task.service.ts:33-41 | for an object's entries, the parameters sent are exactly the entries whose value is not undefined, null or empty, in order, each rendered as text |
| ClientTaskService.SentValuesNonEmpty | frontend/src/app/core/services/task.service.ts:37-38 | no parameter is sent with an empty value |
| ClientTaskService.MatchesOwnKey | frontend/src/app/core/services/task.service.ts:192-195 | a task matches its own `id \|\| _id` key |
| ClientTaskService.Replaced | frontend/src/app/core/services/task.service.ts:190-199 | every cached entry matching the updated task's key becomes that task; the others and the order stay |
| ClientTaskService.ReplacedIdempotent | frontend/src/app/core/services/task.service.ts:190-199 | applying the same update twice is applying it once |
| ClientTaskService.ReplacedWithoutMatch | frontend/src/app/core/services/task.service.ts:190-199 | an update for a task not in the cache leaves the cache as it is |
| ClientTaskService.Removed | frontend/src/app/core/services/task.service.ts:201-208 | the cache keeps exactly the entries whose `id` and `_id` both differ from the id |
| ClientTaskService.RemovedIdempotent | frontend/src/app/core/services/task.service.ts:201-208 | removing an id twice is removing it once |
| ClientTaskService.ToggleTaskStatus | frontend/src/app/core/services/task.service.ts:175-179 | a completed task is uncompleted and any other completed, by its `id \|\| _id` key |
| ClientTaskService.ToggleReplyFlipsEntry | frontend/src/app/core/services/task.service.ts:175-199 | when the server answers a toggle with the task flipped, that entry of the cache flips in place |
| ClientTaskService.ErrorMessage | frontend/src/app/core/services/task.service.ts:214-226 | the message is never empty: the server's message, else the error's own, else 'Ocorreu um erro inesperado' |
| ClientTaskService.HandleError | frontend/src/app/core/services/task.service.ts:214-226 | the error is rethrown unchanged with that message |
| ClientTaskService.TaskCache.constructor | frontend/src/app/core/services/task.service.ts:22-26 | the cache starts empty and not loading |
| ClientTaskService.TaskCache.ClearTasks | frontend/src/app/core/services/task.service.ts:181-183 | the cache becomes empty |
| ClientTaskService.TaskCache.AddTaskToLocal | frontend/src/app/core/services/task.service.ts:185-188 | the new task goes first, ahead of the old cache |
| ClientTaskService.TaskCache.UpdateTaskInLocal | frontend/src/app/core/services/task.service.ts:190-199 | the cache becomes its Replaced form |
| ClientTaskService.TaskCache.RemoveTaskFromLocal | frontend/src/app/core/services/task.service.ts:201-208 | the cache becomes its Removed form |
| ClientTaskService.TaskCache.GetTasks | frontend/src/app/core/services/task.service.ts:29-62 | sends the parameters BuildParams gives; a 'success' listing replaces the cache, anything else leaves it; a failure is rethrown with its message; loading ends false |
| ClientTaskService.TaskCache.CreateTask | frontend/src/app/core/services/task.service.ts:71-87 | a 'success' reply with a task puts it first; otherwise the cache stays; a failure is rethrown with its message; loading ends false |
| ClientTaskService.TaskCache.UpdateTask | frontend/src/app/core/services/task.service.ts:89-159 | update, complete and uncomplete: a 'success' reply with a task replaces its entries; otherwise the cache stays; loading ends false |
| ClientTaskService.TaskCache.DeleteTask | frontend/src/app/core/services/task.service.ts:107-123 | a 'success' reply removes the id from the cache; otherwise the cache stays; loading ends false |
| ClientHttp.ItemTexts | frontend/src/app/core/interceptors/error.interceptor.ts:57-59 | one text per entry of an `errors` array, in order, each the first non-empty of its two fields in the chosen order |
| ClientAuthService.WithAuthData | frontend/src/app/core/services/auth.service.ts:131-136 | storing a sign-in writes the access token, the refresh token and the user's JSON under their keys, the text 'undefined' when the reply has no user, and leaves every other key alone |
| ClientAuthService.WithoutAuthData | frontend/src/app/core/services/auth.service.ts:142-147 | clearing removes exactly the three session keys |
| ClientAuthService.ClearUndoesSet | frontend/src/app/core/services/auth.service.ts:131-147 | clearing after a sign-in leaves storage as clearing alone would |
| ClientAuthService.ValidToken | frontend/src/app/core/services/auth.service.ts:163-174 | a token is valid only when present, decodable and carrying an `exp` |
| ClientAuthService.ValidTokenWindow | frontend/src/app/core/services/auth.service.ts:163-174 | a non-empty decodable token with `exp` is valid exactly while the clock in milliseconds is below `exp` times 1000 |
| ClientAuthService.ClientValidImpliesServerLive | frontend/src/app/core/services/auth.service.ts:163-174 | a token the client holds valid is not expired by the server's test |
| ClientAuthService.AsWrittenTokensNeverValid | frontend/src/app/core/services/auth.service.ts:163-180 | an access token issued as written has no `exp`, so the client never holds it valid |
| ClientAuthService.IssuedTokensValidSevenDays | frontend/src/app/core/services/auth.service.ts:163-174 | a corrected access token is valid exactly until the start of the second seven days after its second of issue: throughout the first seven days less a second, and never after seven days |
| ClientAuthService.AuthErrorMessage | frontend/src/app/core/services/auth.service.ts:192-200 | the server's message; else, when the body has an `errors` array, the entries' `msg \|\| message` joined by ', '; else the error's own message; else the default |
| ClientAuthService.AuthAndTaskMessagesAgree | frontend/src/app/core/services/auth.service.ts:192-200 | without an `errors` array the session and the task service word an error alike |
| ClientAuthService.SingleErrorShown | frontend/src/app/core/services/auth.service.ts:196-197 | a single error entry is shown as its own text, `msg` first |
| ClientAuthService.Session.constructor | frontend/src/app/core/services/auth.service.ts:20-28 | the session starts from storage and stays only when the stored token is valid; otherwise storage loses the three keys, there is no user, the flag is false and the login page is opened |
| ClientAuthService.Session.SetAuthData | frontend/src/app/core/services/auth.service.ts:131-140 | storage gets the sign-in (when available), the reply's user is published (none when the reply has no user), authenticated |
| ClientAuthService.Session.ClearAuthData | frontend/src/app/core/services/auth.service.ts:142-153 | the three keys go, no user, not authenticated, and one navigation to '/auth/login' |
| ClientAuthService.Session.UpdateCurrentUser | frontend/src/app/core/services/auth.service.ts:156-161 | only the stored user and the current user change |
| ClientAuthService.Session.CheckTokenValidity | frontend/src/app/core/services/auth.service.ts:176-180 | a session with a valid token is untouched; any other is cleared |
| ClientAuthService.Session.HandleError | frontend/src/app/core/services/auth.service.ts:182-204 | a 401 clears the session and nothing else does; the error is rethrown with its message |
| ClientAuthService.Session.Login | frontend/src/app/core/services/auth.service.ts:30-57 | login and register: a 'success' reply with data signs in; another reply changes nothing and navigates nowhere; a failure is rethrown with its message; a 401 failure clears the stored session, leaves no user and navigates to the login page; any other failure changes nothing |
| ClientAuthService.Session.Logout | frontend/src/app/core/services/auth.service.ts:59-68 | the session is cleared whether the call succeeds or fails; a failure is reported as 'Logout failed' |
| ClientAuthService.Session.RefreshSession | frontend/src/app/core/services/auth.service.ts:70-91 | without a refresh token the session is cleared and the call is not made; a 'success' reply with data signs in again; a reply without a user, which is what the server's refresh sends (src/controllers/authController.ts:143-147), leaves the session authenticated with no published user and 'undefined' stored as the user; after any delivered reply no navigation happens; a failure clears the session, navigates to the login page and is rethrown |
| ClientAuthService.Session.GetProfile | frontend/src/app/core/services/auth.service.ts:93-103 | a 'success' reply with a user updates the current user alone and navigates nowhere; a failure is rethrown with its message; a 401 failure clears the session and navigates to the login page; any other failure changes nothing |
| ClientErrorInterceptor.GetErrorMessage | frontend/src/app/core/interceptors/error.interceptor.ts:35-73 | status 0 and statuses from 500 get fixed texts, then 401, 403, 404 and 408; a 400 shows its `errors` entries joined by ', ' when there are any, else the server's message or a default; 409 and any other status the server's message or a default |
| ClientErrorInterceptor.Intercept | frontend/src/app/core/interceptors/error.interceptor.ts:15-33 | every failure is rethrown unchanged, with the message chosen above |
| ClientErrorInterceptor.FixedStatusesIgnoreReply | frontend/src/app/core/interceptors/error.interceptor.ts:36-54 | for status 0, 401, 403, 404, 408 and 500 up the message ignores what the server sent |
| ClientErrorInterceptor.EmptyOnlyFromErrorList | frontend/src/app/core/interceptors/error.interceptor.ts:56-62 | the only empty message comes from a 400 whose `errors` entries all lack a text |
| ClientErrorInterceptor.SingleErrorShown | frontend/src/app/core/interceptors/error.interceptor.ts:57-59 | a single validation entry is shown as its own text, `message` first |
| ClientAuthInterceptor.AddAuthHeader | frontend/src/app/core/interceptors/auth.interceptor.ts:35-47 | a stored non-empty token goes on every call except login, registration and refresh, as 'Bearer ' plus the token; any other call is left as it is |
| ClientAuthInterceptor.AttachedHeaderIsAccepted | frontend/src/app/core/interceptors/auth.interceptor.ts:35-47 | the header attached is one from which the server's middleware extracts the same token |
| ClientAuthInterceptor.RefreshCallsCarryNoToken | frontend/src/app/core/interceptors/auth.interceptor.ts:78-82 | a refresh call never carries an access token, whatever surrounds its path |
| ClientAuthInterceptor.OnError | frontend/src/app/core/interceptors/auth.interceptor.ts:20-76 | (corrected) anything but a 401 is rethrown, and so is any failure of an authentication call or of the logout call; another 401 starts a refresh when none is in flight and otherwise waits for it |
| ClientAuthInterceptor.Released | frontend/src/app/core/interceptors/auth.interceptor.ts:69-75 | a held call goes on exactly when the refresh subject has a value |
| ClientAuthInterceptor.RefusedRefreshHangsAsWritten | frontend/src/app/core/interceptors/auth.interceptor.ts:25-75 | as written, a refresh refused with 401 is held behind itself: the flag stays set, the subject stays empty, and every later 401 is held too |
| ClientAuthInterceptor.RefusedRefreshIsRethrown | frontend/src/app/core/interceptors/auth.interceptor.ts:78-82 | with authentication calls exempt, a refused refresh is rethrown to its own error handler, whatever the refresh state |
| ClientAuthInterceptor.OnErrorAgreesElsewhere | frontend/src/app/core/interceptors/auth.interceptor.ts:20-32 | the correction changes nothing for calls other than login, registration, refresh and logout |
| ClientAuthInterceptor.AuthInterceptor.constructor | frontend/src/app/core/interceptors/auth.interceptor.ts:17-18 | no refresh in flight and an empty subject |
| ClientAuthInterceptor.AuthInterceptor.HandleError | frontend/src/app/core/interceptors/auth.interceptor.ts:20-32 | (corrected: login, registration, refresh and logout calls are exempt, see Findings) the state and the reaction are the ones OnError gives |
| ClientAuthInterceptor.AuthInterceptor.HandleErrorAsWritten | frontend/src/app/core/interceptors/auth.interceptor.ts:20-32 | the state and the reaction are the ones the as-written OnErrorAsWritten gives, every 401 going to the refresh path |
| ClientAuthInterceptor.AuthInterceptor.RefreshSucceeded | frontend/src/app/core/interceptors/auth.interceptor.ts:55-60 | the flag clears, the subject gets a value, and the call is retried with the new token |
| ClientAuthInterceptor.AuthInterceptor.RefreshFailed | frontend/src/app/core/interceptors/auth.interceptor.ts:61-67 | the flag clears, the session is logged out (stored tokens and user removed where storage is available, no current user, not authenticated, exactly one navigation to '/auth/login'), after which neither token is stored, and the refresh's error is rethrown |
| ClientAuthInterceptor.AuthInterceptor.LogoutAfterRefreshFailureAsWritten | frontend/src/app/core/interceptors/auth.interceptor.ts:20-67 | as written, from the state RefreshFailed leaves (not refreshing, no token stored): the logout call goes out without a header, `authenticate` answers 401 'Access token is required', the 401 starts a refresh, the refresh fails at once for want of a refresh token, and RefreshFailed runs again, leaving the same state after two navigations to '/auth/login', so the rounds never end |
| ClientAuthInterceptor.AuthInterceptor.LogoutAfterRefreshFailure | frontend/src/app/core/interceptors/auth.interceptor.ts:20-67 | (corrected, see Findings) from the same state the logout call's 401 is rethrown without starting a refresh; the logout's error handler clears the session once, with one navigation, and reports 'Logout failed' |

## Left out

- MongoStore.GetTasksPaginated: requires page and limit of at least 1 when given. The source passes a page or limit of 0, a negative number or NaN straight to `skip`/`limit`, and the driver's reaction to those is not modelled. For such a request `TaskMongoController.ListTasks` answers with the call it would make (`PageCall`), without running it, and claims no status or message (the `Unrun` reply); a page of 0, for one, makes `skip` negative and the server answers 500.
- MongoStore.PageOf, MongoStore.TotalPages: require page and limit of at least 1, for the same reason.
- TaskController.ListTasks: in paginated mode it answers with the call it would make (`PageCall`) and claims no status or message for it (the `Unrun` reply). The relational `getTasksPaginated` it calls is not part of this model: `src/services/taskService.ts` has no such function.
- TaskMongoController.CreateTask: requires the validator's view of `dueDate` (a string) and the cast view (a date) to be present together. The model takes both views of one request body, and a body whose date text and date disagree is not a request.
- TaskMongoController.UpdateTask: requires `SameUpdate`, for the same reason: the validator's view and the cast view of the body carry the same fields, the same title, description and priority, and a `completed` that `isBoolean` accepts casts to the boolean it names. The due date is tied by presence only, because date parsing is not modelled.
- TaskMongoController.CreateTask, MongoStore.TaskStore.CreateTask: require a fresh ObjectId, `newId`, in the lower-case form the driver writes. Id generation is a parameter.
- SqlStore.TaskTable.CreateTask: the branch that throws 'Failed to create task' is not modelled. It fires when the row just inserted cannot be read back, which a single-writer table cannot produce.
- SqlStore.TaskTable.CreateTask: the created row's `due_date` is the input text. The source reads the row back from a `DATETIME` column, which the driver returns as a `Date`; date conversion is not modelled.
- TaskController.UpdateInputOf: a `completed` string that passes `isBoolean` is modelled as the boolean it names (`BoolOf`). The source binds the string itself to the `BOOLEAN` column; in strict mode MySQL refuses 'true' and 'false' with an error (500), and otherwise does not store them as 1. That outcome is not modelled.
- SqlStore: the SQL text itself, the connection pool and MySQL's `ON UPDATE CURRENT_TIMESTAMP` refresh of `updated_at` are not modelled.
- SqlStore.TaskTable.GetAllTasks, SqlStore.TaskTable.GetTasksByStatus, SqlStore.TaskTable.GetTasksByPriority: rows created in the same second tie on `created_at` (`WholeSecondTiesSameSecond`), and MySQL gives no order among tied rows. The model breaks ties by table order (a stable sort), so each listing it returns is one of the orders the server may return, not the only one.
- JavaScript `null` and `undefined` are both `None`. JSON request bodies are modelled with string fields plus a cast view. Values of other JSON types in `ResourceOwner`'s body are not modelled.
- ErrorHandler.Handle: an error whose `message` is undefined is modelled with an empty message. The console logging is not modelled.
- Thrown values that are not `Error` instances are not modelled. This covers the 'Authentication failed' fallback of `authenticate` and the 'Failed to create task' fallback of the Mongo `createTask` handler: every failure the model raises carries a message.
- Jwt: the `iat` claim and the header and signature format are not modelled. `sign`, `verify` and `decode` are parameters.
- ClientAuthService: the user object's JSON round trip through local storage is the pair `userJson`/`storedUser`, given as parameters. `atob` and `JSON.parse` of a token's payload are the `decode` parameter.
- ClientAuthService.Session.Login: it models both `login` and `register`, whose handling of the reply is identical.
- ClientTaskService: `getTaskById`, `getTaskStats` and `getOverdueTasks` only forward the reply or the error and change no state. They are not modelled beyond `ErrorMessage`.
- ClientTaskService, ClientAuthService: Observables, subscriptions and the exact timing of the `loading` flag between request and reply are not modelled. Each method takes the call's outcome as an argument.
- ClientAuthInterceptor: the order in which Angular registers the two interceptors is not modelled. The error interceptor's message is computed independently of the auth interceptor's reaction. The 401 handling, and the last two findings, take the auth interceptor to receive the `HttpErrorResponse` itself: the error interceptor rethrows a plain object, which would fail the `instanceof` test if that interceptor sat between the auth interceptor and the server.
- ClientHttp: an `errors` field that is not an array, and `null` items inside it, are not modelled.
- Common.IntToDecimal: `toString` of numbers that are not integers is not modelled; only integer task ids reach it.
- Ordering.Sort: ties are broken by natural order (a stable sort). MongoDB promises no order among equal keys, so each listing the model returns is one of the orders the server may return, not the only one.
- TaskSchema.Violations: only the required-first prefix of the order in which Mongoose lists the failing paths is the source's; the order of the remaining paths is the model's own, and only the joined message text depends on it.
- TaskSchema.Patch: holds the values the body's keys cast to; a `userId` is held in its cast, lower-case form. A `userId` that is not a valid ObjectId or a `dueDate` that is not a date makes Mongoose throw a cast error before validation; those errors, and keys set to `null`, are not modelled.
- TaskSchema.IsValidObjectId: a string is valid when it has 24 hexadecimal digits. Older versions of the BSON library also accepted any 12-character string as 12 raw bytes; the driver version is not fixed here, and that form is not modelled.
- MongoStore: owners are compared as strings. Both sides are in the cast form: the caller's id is the stored user's `_id.toString()`, and a patch's `userId` is its cast. So the comparison agrees with the driver's comparison of ObjectIds.
- MongoStore: `populate('userId', 'name email')` is not modelled; tasks carry the owner's id. The text index's weights and scoring are the `textMatch` parameter. The pre-save hook's user lookup is the `users` set of the store.
- Console logging, environment configuration, the route tables, rate limiting and the user and authentication controllers are not part of this model, apart from the shape of the refresh reply (a token pair without a user) that the client receives, and the refused refresh cited in the findings.
- ClientAuthService.Session.constructor: `getCurrentUser` is the parameter `storedUser`. When the stored user is the text 'undefined', left by a refresh, its `JSON.parse` throws while the service is constructed; that throw is not modelled.

## Findings

| source | as written | input that shows it | evidently intended | confidence | as-written member | corrected member |
|---|---|---|---|---|---|---|
| src/services/taskMongoService.ts:80-88 | `sortFields[sortBy] \|\| 'createdAt'` looks the name up in a plain object literal, so inherited names pass the fallback | `sortBy` = 'toString': the lookup yields the inherited function, which is truthy, and it becomes the sort key instead of 'createdAt' | any name outside the five sortable fields falls back to 'createdAt' | high, not executed | MongoStore.SortFallbackCounterexample | MongoStore.SortFieldOf |
| src/services/taskMongoService.ts:233-246 | overdue counts pending tasks whose `dueDate` is `$lt` now, and in BSON order a missing date is below every date | one pending task without a due date: the stats report it as overdue, while the overdue listing at lines 206-216 does not | only pending tasks with a due date in the past are overdue, as the overdue listing counts them | high, not executed | MongoStore.StatsOverdueCounterexample | MongoStore.GetTaskStats |
| src/utils/jwtUtils.ts:8-15 | tokens are signed without an expiry, while the response reports `expiresIn` '7d' | any token pair issued at any time: its access token carries no `exp`, so the client never holds it valid and the server's `isTokenExpired` calls it expired; `jwt.verify` then has no `exp` to reject, which is not modelled (verification is a parameter) | the access token expires seven days after it is issued | medium, not executed | Jwt.IssuedTokensCountAsExpired, ClientAuthService.AsWrittenTokensNeverValid | Jwt.IssuedAccessTokenLivesSevenDays |
| frontend/src/app/core/interceptors/auth.interceptor.ts:25-75 | the 401 branch also applies to the refresh call itself, and the server answers a refused refresh with 401 (src/controllers/authController.ts:149-151) | an expired session whose refresh token is also refused: the refresh's own 401 waits on the refresh subject, which never gets a value, so the refresh and every later 401 hang | a failing login, registration or refresh call is rethrown, so the refresh's failure handler runs; the logout it sends ends the session only when the logout call is exempt as well (next row) | low, not executed: it depends on the interceptor chain re-entering for the refresh call | ClientAuthInterceptor.RefusedRefreshHangsAsWritten | ClientAuthInterceptor.RefusedRefreshIsRethrown |
| frontend/src/app/core/interceptors/auth.interceptor.ts:61-64 | after a failed refresh the handler calls `logout()`, whose call passes through the interceptor after the tokens were cleared; the logout route sits behind `authenticate` (src/routes/authRoutes.ts:46), which refuses a call without a token with 401 (src/middleware/auth.ts:23-29), and the logout call is not exempt from the 401 handling | a refresh that fails with a status other than 401 as written, or any refused refresh under the previous row's correction: the tokenless logout is refused, its 401 starts a refresh, which fails at once with no refresh token stored (frontend/src/app/core/services/auth.service.ts:70-76), and the failure handler sends the next logout; this never ends, and each round navigates to '/auth/login' twice | the logout call's 401 goes to the logout's own error handler, which clears the session once and reports 'Logout failed' | medium, not executed: like the previous row, it depends on the interceptor chain re-entering for calls the authentication service makes | ClientAuthInterceptor.AuthInterceptor.LogoutAfterRefreshFailureAsWritten | ClientAuthInterceptor.AuthInterceptor.LogoutAfterRefreshFailure |
