# yii2-rest-client in Dafny

This project models the core of yii2-rest-client, a PHP extension for the Yii 2 framework. It lets
ActiveRecord models and ActiveQuery queries talk to a REST API instead of a database. A query such as
`RestModel::find()->where(['id' => 1])->one()` is compiled into a path (`rest-models/1`) and query
parameters (`fields`, `expand`, `filter`, `sort`, `per-page`, `page`). The answer is then turned back
into records.

The repository holds two lineages that behave differently, and they are modelled as separate modules:

| module | file | source |
|---|---|---|
| `Php` | `php.dfy` | PHP's ordered arrays (`seq<(Key, Value)>` with integer or string keys), truthiness, `(int)` casts, `trim`, `implode`/`explode`, `array_merge`, `array_filter` |
| `Http` | `http.dfy` | requests, responses and an abstract `Transport` whose answers are a function of the request, with a log of the requests sent |
| `Conditions` | `conditions.dfy` | `src/conditions/*Builder.php`: the filter compiler for simple, hash, IN, BETWEEN, LIKE, AND/OR and NOT conditions |
| `RestQueryBuilder` | `rest_query_builder.dfy` | `src/QueryBuilder.php` |
| `RestConnection` | `rest_connection.dfy` | `src/Connection.php`: the cache-scope stack, `init()` and the request outcome |
| `RestCommand` | `rest_command.dfy` | `src/Command.php`: primary-key folding, pluralisation, filter unwrapping and the query cache |
| `RestActiveRecord` | `rest_active_record.dfy` | `src/ActiveRecord.php` |
| `RestActiveQuery` | `rest_active_query.dfy` | `src/ActiveQuery.php`: model creation and the hydration of joined relations |
| `LegacyQueryBuilder` | `legacy_query_builder.dfy` | `QueryBuilder.php` (the root-level lineage) |
| `LegacyCommand` | `legacy_command.dfy` | `Command.php` |
| `LegacyActiveRecord` | `legacy_active_record.dfy` | `ActiveRecord.php`: the allow-listed attribute map |
| `LegacyActiveQuery` | `legacy_active_query.dfy` | `ActiveQuery.php`: envelopes, pagination and `count()` |

The code's form is kept:
- Expression-like builders are functions.
- The loops of the source are methods with `while` loops, proved against those functions.
  - Examples: `foreach` over a hash, `buildJoin`, `buildOrderBy`, the pruning loop, `createModels`, `setPagination`.
- Objects whose fields the source updates are classes with `modifies` clauses.
  - Examples: queries, commands, the connection and records.
- A thrown exception is an `Outcome` value, `Err(Thrown(class, message))`. It is never a precondition.

Behaviour worth knowing, each stated as a lemma:
- The page number is `ceil(offset / limit) + 1` in both lineages. So an offset that is not a multiple of the limit starts at the next page, and the rows in between are skipped (`RestQueryBuilder.PageStart`, `RestQueryBuilder.CeilPageExample`).
- A positive offset with a null or zero limit divides by zero. This is modelled as an error outcome.
- A primary-key value of 0:
  - the root `Command.php` asks for `rest-models/0` and keeps the filter;
  - `src/Command.php` drops the key from the filter and keeps the bare collection path (`LegacyCommand.ZeroKeyDiffersFromSrc`).
- The root `QueryBuilder.php` only supports AND and IN in operator format. OR throws NotSupportedException (`LegacyQueryBuilder.OrIsNotSupported`). IN keys its filter by the first character of a string column (`LegacyQueryBuilder.InStringColumnUsesFirstCharacter`).
- A LIKE condition with several values never builds. The and/or word is put in front of the parts and handed back to `buildCondition`, which reads it as an operator. With two values the operator's builder gets an array as column, which PHP refuses as an array key (TypeError). With more values the operator lacks its two operands (InvalidArgumentException). A LIKE without values throws the same way, unless it is NOT LIKE (`Conditions.LikeManyThrows`, `Conditions.LikeNoValues`).
- An exception while building a condition, for example in a nested LIKE, propagates through every enclosing builder and out of `build()`, before the page computation is reached (`Conditions.HashUnwrap`, `Conditions.ConjunctionKeepsOrder`, `RestQueryBuilder.CompileErrors`).
- `execute('head')` answers the response's header collection in both lineages, whatever the status. In `src/`, exceptions on a status that is not OK are the one case where it throws. The `src/` connection puts the parameters in the URL and sends no Authorization header. The root connection sends the parameters as request headers (`RestCommand.HeadRepliesHeaders`, `LegacyCommand.HeadAnswersHeaders`).
- After `insertInternal()` the old attributes are the values that were sent, not the server's answer. So a primary key assigned by the server is not an old attribute, and a later update or delete goes to the bare model path (`RestActiveRecord.InsertedKeyNotOld`).
- `createModels()` asks every model for `getRelations()`, which neither `src/ActiveRecord.php` nor yii's BaseActiveRecord declares. A record class must declare it; without it the first row throws UnknownMethodException (`RestActiveQuery.NoGetRelationsThrows`).
- An operator outside the filter-token table reads as an undefined index in PHP, which gives the key `""`. The model returns that key and places no precondition on the operator.

## Model

| member | source | states |
|---|---|---|
| Http.HeaderFirst | ActiveQuery.php:210-212 | a header is found exactly when some header's name matches case-insensitively, and then it is the first match's value |
| Conditions.DropBlank | src/conditions/ConjunctionConditionBuilder.php:58-60 | no part equal to the empty string survives |
| Conditions.BuildIn | src/conditions/InConditionBuilder.php:25-65 | an IN condition always builds to an array |
| Conditions.BuildBetween | src/conditions/BetweenConditionBuilder.php:27-50 | a BETWEEN condition always builds to an array |
| Conditions.Build | src/conditions/SimpleConditionBuilder.php:39-55 | every condition object that builds gives a filter array |
| Conditions.BuildHashCondition | src/conditions/HashConditionBuilder.php:28-51 | the loop over the hash gives what the hash condition builds to, or the first entry's exception |
| Conditions.BuildExpressionsFrom | src/conditions/ConjunctionConditionBuilder.php:48-64 | the loop builds every operand in order and drops the '' ones, or stops at the first exception |
| Conditions.BuildConjunctionCondition | src/conditions/ConjunctionConditionBuilder.php:25-39 | the method gives what the AND/OR condition builds to, or its exception |
| Conditions.BuildLikeCondition | src/conditions/LikeConditionBuilder.php:26-64 | the loop over the values gives what the LIKE condition builds to, or the exception it throws |
| Conditions.TokenRoundTrip | src/conditions/SimpleConditionBuilder.php:19-32 | the operator table is one-to-one: a token reads back as its operator, and only the twelve listed operators have a token |
| Conditions.SimpleShape | src/conditions/SimpleConditionBuilder.php:46-54 | a simple condition gives `{column: {token: value}}`; null stays null, an expression value is built, and an expression that throws makes the condition throw the same |
| Conditions.HashPartsPerEntry | src/conditions/HashConditionBuilder.php:34-48 | entry i gives [] exactly when its value is an array or a sub-query; otherwise a map keyed by its column holding the value or the built expression, or the nested expression's exception |
| Conditions.HashUnwrap | src/conditions/HashConditionBuilder.php:32-50 | one entry gives its own part; any other number gives the list of parts, and an empty hash gives []; the first entry that throws makes the hash condition throw the same |
| Conditions.HashArrayValueDropped | src/conditions/HashConditionBuilder.php:35-37 | a column whose value is an array builds to [] |
| Conditions.InSpecialCases | src/conditions/InConditionBuilder.php:33-54 | no columns gives the `[0 => 1]` sentinel; a sub-query or several columns give []; no values gives the sentinel; a one-column array is unwrapped |
| Conditions.InValuesShape | src/conditions/InConditionBuilder.php:57-63 | several values give `{column: {in or nin: values}}`; one value with IN gives `{column: value}` |
| Conditions.InSingleNegatedIsNot | src/conditions/InConditionBuilder.php:62-64 | one value with NOT IN builds as `['not', [column => value]]` does |
| Conditions.BetweenShape | src/conditions/BetweenConditionBuilder.php:36-42 | BETWEEN always builds, to one column key with `gt` the start and `lt` the end |
| Conditions.BetweenNegatedIsOr | src/conditions/BetweenConditionBuilder.php:43-49 | any other operator builds as `['or', ['<', column, start], ['>', column, end]]` does |
| Conditions.LikeWrapsSingleValue | src/conditions/LikeConditionBuilder.php:39-41 | a single value builds as the one-element list holding it |
| Conditions.LikeNoValues | src/conditions/LikeConditionBuilder.php:43-45 | no values give [] for a negated operator; otherwise the sentinel makes `buildCondition` throw InvalidArgumentException "Operator '1' requires two operands." |
| Conditions.LikeOneValue | src/conditions/LikeConditionBuilder.php:48-59 | one value gives `{column: {like: term}}`, or the exception of an expression value, and negating the operator does not change it |
| Conditions.LikeManyThrows | src/conditions/LikeConditionBuilder.php:57-63 | two values throw TypeError "Illegal offset type"; more values throw InvalidArgumentException "Operator ' AND ' requires two operands." (or ' OR '); no values ever reach the filter |
| Conditions.LikeFirstFailure | src/conditions/LikeConditionBuilder.php:48-55 | the first value whose expression throws makes the LIKE condition throw the same |
| Conditions.ConjunctionKeepsOrder | src/conditions/ConjunctionConditionBuilder.php:50-63 | operands that are not '' give one part each, in operand order; the first operand that throws makes the AND/OR condition throw the same |
| Conditions.ConjunctionShape | src/conditions/ConjunctionConditionBuilder.php:30-38 | no parts give []; one part gives the one-element list; two or more are keyed by the and/or word alone |
| Conditions.NotShape | src/conditions/NotConditionBuilder.php:29-35 | NOT gives [] for an empty operand and otherwise the one-key map `{not: built operand}`, or the operand's exception |
| RestQueryBuilder.OrderTerms | src/QueryBuilder.php:216-223 | one sort term per ordered column, in order |
| RestQueryBuilder.BuildWhere | src/QueryBuilder.php:150-172 | no condition gives []; a condition that builds gives an array, and one that throws passes its exception on |
| RestQueryBuilder.CeilDiv | src/QueryBuilder.php:239 | the result is the ceiling of the offset divided by the limit, for either sign of the limit |
| RestQueryBuilder.BuildJoin | src/QueryBuilder.php:122-141 | the loop over the joins gives the comma-joined relation names |
| RestQueryBuilder.BuildOrderBy | src/QueryBuilder.php:210-226 | the loop over the ordered columns gives the comma-joined sort terms |
| RestQueryBuilder.Build | src/QueryBuilder.php:69-90 | the method gives the compiled query, or the filter's or the division's exception, that the query compiles to |
| RestQueryBuilder.MergedClauses | src/QueryBuilder.php:75-83 | the limit clauses use only `per-page` and `page`, so `array_merge` appends them after the five clauses |
| RestQueryBuilder.MergeKeyed | src/QueryBuilder.php:83 | merging the five named clauses with `per-page` and `page` appends those two |
| RestQueryBuilder.LimitKeys | src/QueryBuilder.php:231-243 | the limit clauses are `per-page`, then `page`, each at most once |
| RestQueryBuilder.ClauseKeysDistinct | src/QueryBuilder.php:75-81 | the five clause names are all different |
| RestQueryBuilder.CompiledParams | src/QueryBuilder.php:75-89 | for a query that compiles, the filter and the page both build; `pathInfo` is returned apart; the parameters are exactly the truthy clauses and limit clauses other than `pathInfo` |
| RestQueryBuilder.ParamsNames | src/QueryBuilder.php:85-89 | `pathInfo` is never a parameter, and every parameter has a clause name and a truthy value |
| RestQueryBuilder.ParamName | src/QueryBuilder.php:88 | each parameter is a truthy clause other than `pathInfo` |
| RestQueryBuilder.FilterAndSortKept | src/QueryBuilder.php:79-88 | the filter and the sort reach the parameters exactly when they are not empty |
| RestQueryBuilder.ClauseKept | src/QueryBuilder.php:88 | a clause other than `pathInfo` is a parameter exactly when it is truthy |
| RestQueryBuilder.LimitErrors | src/QueryBuilder.php:231-243 | with a positive offset the page computation fails exactly when the limit is null or 0; without one only a non-negative limit gives `per-page` |
| RestQueryBuilder.CompileErrors | src/QueryBuilder.php:75-83 | `build()` throws exactly when the filter or the page computation throws, and the filter's exception comes first |
| RestQueryBuilder.CeilPageExample | src/QueryBuilder.php:234-240 | limit 10 and offset 25 give `per-page` "10" and `page` 4 |
| RestQueryBuilder.PageStart | src/QueryBuilder.php:237-240 | the requested page starts at the first multiple of the limit at or after the offset, so an unaligned offset skips rows |
| RestQueryBuilder.SelectRoundTrip | src/QueryBuilder.php:95-102 | splitting `fields` at ',' gives back the selected columns |
| RestQueryBuilder.ExpandRoundTrip | src/QueryBuilder.php:122-141 | splitting `expand` at ',' gives back the joined relation names |
| RestQueryBuilder.JoinNamesOfRelations | src/QueryBuilder.php:129-138 | non-empty relation names are all kept, in order |
| RestQueryBuilder.SortRoundTrip | src/QueryBuilder.php:210-226 | splitting `sort` at ',' gives one term per column, from which the name and the direction read back |
| RestQueryBuilder.SortTermRoundTrip | src/QueryBuilder.php:221 | a sort term adds no comma, and its name and direction read back |
| RestQueryBuilder.FromTrimmed | src/QueryBuilder.php:110-117 | `pathInfo` is the trimmed table name, "" for anything that is not a string, and trimming again changes nothing |
| RestConnection.Connection.constructor | src/Connection.php:53-136 | the configuration step alone: every setting is the configured one, and the scope stack starts empty; `init()` is a separate step, which `RestConnection.Connect` runs |
| RestConnection.Connect | src/Connection.php:278-287 | creating a connection assigns the configuration and then runs `init()`: a falsy base URL throws InvalidConfigException "The `baseUrl` config option must be set" and gives no connection; otherwise the new connection has the base URL without its trailing '/'s, every other setting as configured, and an empty scope stack |
| RestConnection.Connection.Init | src/Connection.php:278-287 | a falsy base URL throws InvalidConfigException "The `baseUrl` config option must be set" and changes nothing; otherwise every trailing '/' is stripped |
| RestConnection.Connection.Cache | src/Connection.php:168-182 | the callable runs under one more scope holding the given duration, or the default one, and the dependency; the scope is popped whether it returned or threw, and its outcome is passed on |
| RestConnection.Connection.NoCache | src/Connection.php:209-223 | the callable runs under one more `false` scope, which is popped afterwards, and its outcome is passed on |
| RestConnection.Connection.CacheInfoUnder | src/Connection.php:234-262 | cache settings are only given with the configured cache component present |
| RestConnection.Connection.Request | src/Connection.php:453-502 | one request is sent: a GET carries its data in the URL, the other methods in the body, with an Authorization header when `auth` is truthy; the outcome is the response data, false, or a RestException |
| RestConnection.Connection.Get | src/Connection.php:354-358 | one GET is sent with the data as query parameters, and its outcome returned |
| RestConnection.Connection.Post | src/Connection.php:386-389 | one POST is sent with the data as body, and its outcome returned |
| RestConnection.Connection.Put | src/Connection.php:400-403 | one PUT is sent with the data as body, and its outcome returned |
| RestConnection.Connection.Delete | src/Connection.php:414-417 | one DELETE is sent with the data as body, and its outcome returned |
| RestConnection.Connection.Head | src/Connection.php:369-375 | one HEAD is sent with the data in the URL and no Authorization header; its headers are returned whatever the status, unless exceptions are on and the status is not OK; test mode throws, having no response to read |
| RestConnection.Connection.RequestFor | src/Connection.php:466-486 | the Authorization header is set, to `auth`, exactly when `auth` is truthy and the method is not HEAD |
| RestConnection.Connection.HeadAnswer | src/Connection.php:369-375 | outside test mode the answer is the response's headers, and it throws exactly for a status that is not OK with exceptions on |
| RestConnection.NoCacheScopeDisablesCaching | src/Connection.php:211 | inside `noCache()` a command without its own duration is not cached |
| RestConnection.CacheScopeFillsNulls | src/Connection.php:240-258 | inside `cache($d)` a command without its own settings is cached with the scope's duration and dependency |
| RestConnection.OwnSettingsWin | src/Connection.php:242-258 | a command's own duration and dependency win over any scope, even inside `noCache()` |
| RestConnection.CacheInfoRequiresDuration | src/Connection.php:236-261 | settings are given only with caching enabled, a cache component and a duration of 0 or more |
| RestConnection.NotOkOutcome | src/Connection.php:494-499 | a response that is not OK gives false, or a RestException carrying its content when exceptions are enabled |
| RestConnection.InitStripsSlashes | src/Connection.php:284 | after `init()` the base URL does not end in '/', is a prefix of the configured one, and stripping again changes nothing |
| RestConnection.InitSlashOnlyBaseUrl | src/Connection.php:280-284 | a base URL of "/" passes the check and ends up empty |
| RestConnection.PluralisationSkipsNestedPaths | src/Command.php:210-212 | a path that already contains '/' is never pluralised |
| RestCommand.CacheKey | src/Command.php:248-256 | the key is a four-entry array holding the class, the method name, the path and the parameters |
| RestCommand.FoldPrimaryKey | src/Command.php:119-129 | a filter that was an array stays an array after the key is taken out |
| RestCommand.Command.constructor | src/Command.php:27-55 | the command holds the given connection, model class, path and parameters, and no cache settings |
| RestCommand.Command.Cache | src/Command.php:65-70 | the duration is the given one, or the connection's default, and the dependency the given one |
| RestCommand.Command.NoCache | src/Command.php:76-80 | the duration becomes -1, which yields no cache settings |
| RestCommand.Command.QueryInternal | src/Command.php:207-242 | the path is pluralised unless it holds '/', the filter is unwrapped when the keyword is off, and the result, data or HEAD headers, comes from the cache or from one request whose answer is then stored |
| RestCommand.Command.Serve | src/Command.php:217-238 | a cache hit is returned without a request; otherwise one request is sent and, with cache settings, `[result]` is stored under the key, for HEAD header collections too |
| RestCommand.Command.Fetch | src/Command.php:229-232 | one request is sent, and with `itemsProperty` set its answer, data or headers, is replaced by what `ArrayHelper::getValue` reads under that property |
| RestCommand.Command.Send | src/Command.php:229 | one request of any of the five methods is sent with the path and the parameters, the parameters in the URL for GET and HEAD; its data, or for HEAD its header collection, is returned |
| RestCommand.Command.QueryAll | src/Command.php:102-105 | a GET through `queryInternal()` |
| RestCommand.Command.QueryOne | src/Command.php:114-132 | the single primary key is folded from the filter into the path, then a GET through `queryInternal()` |
| RestCommand.Command.Execute | src/Command.php:141-144 | the given method, HEAD included, through `queryInternal()` |
| RestCommand.Command.Insert | src/Command.php:155-160 | the path becomes the model, and one POST of the columns is sent there, bypassing the cache |
| RestCommand.Command.Update | src/Command.php:172-180 | the path becomes `model/id`, or the model for a falsy id, and one PUT of the data is sent there |
| RestCommand.Command.Delete | src/Command.php:191-199 | the path becomes `model/id`, or the model for a falsy id, and one DELETE is sent there |
| RestCommand.FoldMovesKeyIntoPath | src/Command.php:122-127 | a truthy key value moves from the filter into the path, and every other filter entry stays |
| RestCommand.FoldDropsFalsyKey | src/Command.php:124-125 | a falsy key value is removed from the filter all the same, and the path stays the collection's |
| RestCommand.FoldNeedsSingleKeyAndFilter | src/Command.php:122 | a composite key, or no filter, leaves path and parameters as they are |
| RestCommand.FindOneByIdFoldsIntoPath | src/Command.php:119-128 | `findOne(1)` on a model keyed by `id` asks for `rest-models/1` with an empty filter |
| RestCommand.UnwrapFilterMergesEntries | src/Command.php:213-216 | unwrapping puts the filter's entries in place of the `filter` parameter, and the filter's string keys win |
| RestCommand.UnwrapFilterWithoutKeyword | src/Command.php:213-216 | with the keyword off, `filter[name]=John` is sent as `name=John` |
| RestCommand.StoredResultIsHit | src/Command.php:223-234 | a stored `[result]` is served again exactly when the result is not null; a header collection always is |
| RestCommand.SecondCallServedFromCache | src/Command.php:217-238 | a second call with the same key and settings returns the first result without a request and changes nothing, even for a `false` result |
| RestCommand.HeadRepliesHeaders | src/Command.php:229 | outside test mode `execute('head')` sends the parameters in the URL without an Authorization header, and answers the header collection whatever the status, unless exceptions are on and the status is not OK |
| RestCommand.HeadInTestModeThrows | src/Connection.php:369-375 | in test mode a HEAD command sends nothing and throws |
| RestCommand.ItemsOfHeaders | src/Command.php:230-232 | `itemsProperty` on a HEAD answer reads the header it names, matched ignoring case, or [] |
| RestCommand.ItemsFlatKey | src/Command.php:230-232 | a property without '.' reads that entry of an array answer, or [] |
| RestCommand.ItemsDottedPath | src/Command.php:230-232 | the property `data.items` reads `x` out of `{data: {items: x}}` |
| RestCommand.ElementPathShape | src/Command.php:174-177 | the element path is the model for a falsy id, and the model, '/' and the id otherwise |
| RestActiveRecord.LastNamed | src/ActiveRecord.php:46-52 | no value exactly when no entry of the input names the attribute |
| RestActiveRecord.OldPrimaryKey | src/ActiveRecord.php:246 | the old primary key throws exactly when the class has no primary key |
| RestActiveRecord.Record.constructor | src/ActiveRecord.php:36-57 | every entry is assigned in order, an integer-keyed one setting the attribute its value names to null; the input becomes the old attributes exactly when every primary-key name is set in it |
| RestActiveRecord.Record.SetAttribute | src/ActiveRecord.php:113-120 | a declared name is written; an unknown name changes nothing and throws nothing |
| RestActiveRecord.Record.AssignEntries | src/ActiveRecord.php:202-204 | the loop assigns every entry in order, and only declared names are stored |
| RestActiveRecord.Record.PopulateRecord | src/ActiveRecord.php:63-84 | every declared column of the row is written, the result becomes the old attributes, and no relation is hydrated |
| RestActiveRecord.Record.RelatedRecords | src/ActiveRecord.php:105-108 | the list of related record names is always empty |
| RestActiveRecord.Record.InsertInternal | src/ActiveRecord.php:193-211 | a refused `beforeSave` gives false and sends nothing; else one POST of the values to the model name; an answer of false gives false; otherwise every declared field of the answer is assigned and the sent values become the old attributes |
| RestActiveRecord.Record.UpdateInternal | src/ActiveRecord.php:233-256 | a refused `beforeSave` gives false; nothing dirty gives 0 and sends nothing; otherwise one PUT of the values to the element path of the old primary key, whose answer is returned, after which the sent values become old values |
| RestActiveRecord.Record.RecordSent | src/ActiveRecord.php:248-252 | every sent value becomes an old value, and the changed map collects the previous old values |
| RestActiveRecord.Record.Delete | src/ActiveRecord.php:263-275 | a refused `beforeDelete` gives false and sends nothing; otherwise one DELETE to the element path of the old primary key, whose answer is returned, after which there are no old attributes |
| RestActiveRecord.Record.UnlinkAll | src/ActiveRecord.php:281-284 | always throws NotSupportedException |
| RestActiveRecord.Instantiate | src/ActiveRecord.php:97-100 | a new record whose attributes and old attributes are those of the populated row |
| RestActiveRecord.InsertOutcome | src/ActiveRecord.php:199-210 | an exception passes through; false exactly for an answer of false, true for any other answer |
| RestActiveRecord.PutDeclared | src/ActiveRecord.php:113-120 | writing a declared name keeps every stored name declared |
| RestActiveRecord.HasAttributeIsDeclared | src/ActiveRecord.php:113-120 | while every stored name is declared, a name has an attribute exactly when it is declared |
| RestActiveRecord.LastNamedAppend | src/ActiveRecord.php:46-52 | an appended entry becomes the last one naming its attribute |
| RestActiveRecord.ConstructedGet | src/ActiveRecord.php:46-52 | after the constructor a declared attribute holds what the last entry naming it assigned, and an undeclared name is not stored |
| RestActiveRecord.AssignAllGet | src/ActiveRecord.php:202-204 | after assigning the entries a declared name holds its last value there, and every other name reads as before |
| RestActiveRecord.InstantiatedGet | src/ActiveRecord.php:63-100 | a created model's declared attribute holds the row's value under its name, or null when the row lists it only under an integer key; its old attributes are its attributes |
| RestActiveRecord.PutAllGet | src/ActiveRecord.php:249-252 | after the loop a sent name holds its last sent value as old value, and any other name is unchanged |
| RestActiveRecord.ChangedGet | src/ActiveRecord.php:248-250 | the changed map has exactly the sent names, each with the old value it had before the update |
| RestActiveRecord.InsertedKeyNotOld | src/ActiveRecord.php:202-207 | a primary key assigned by the server is stored in the attributes but not in the old attributes, so a later update or delete goes to the bare model path |
| RestActiveRecord.OldKeyPath | src/ActiveRecord.php:246 | a truthy old single key is appended to the model name for update and delete |
| RestActiveQuery.OffsetKey | src/ActiveQuery.php:201 | an array has no key to read the row under; every scalar join names one |
| RestActiveQuery.PutRelated | src/ActiveQuery.php:222-234 | after populating a relation, the model holds the given records under its name |
| RestActiveQuery.RelatedModels | src/ActiveQuery.php:224-230 | the related models are one per relation row, in order, each populated from its row, exactly when every row is an array |
| RestActiveQuery.JoinStep | src/ActiveQuery.php:200-235 | a pass that succeeds leaves the row with the join's key unset |
| RestActiveQuery.ActiveQuery.constructor | src/ActiveQuery.php:21-29 | a new query for the class, with no joins and the given array and index settings |
| RestActiveQuery.ActiveQuery.JoinWith | src/ActiveQuery.php:136-145 | an array of relations is merged into the joins, anything else is appended to them |
| RestActiveQuery.ActiveQuery.With | src/ActiveQuery.php:150-155 | all the arguments, as one list, are merged into the joins |
| RestActiveQuery.ActiveQuery.Via | src/ActiveQuery.php:88-91 | always throws NotSupportedException |
| RestActiveQuery.ActiveQuery.Populate | src/ActiveQuery.php:161-181 | no rows give []; an array query gives the rows, indexed when asked; otherwise the models of the rows |
| RestActiveQuery.ActiveQuery.One | src/ActiveQuery.php:72-82 | an empty row gives null; a row with an entry 0 is populated as a list of rows, any other as the only row, and the first result is answered |
| RestActiveQuery.ActiveQuery.CreateModels | src/ActiveQuery.php:186-240 | the loop gives one model per row, in order, and stops at the first row that throws |
| RestActiveQuery.ActiveQuery.CreateModel | src/ActiveQuery.php:192-237 | one row is instantiated; a class without `getRelations()` then throws UnknownMethodException; otherwise the row is populated, then hydrated when the joins are an array |
| RestActiveQuery.ActiveQuery.Hydrate | src/ActiveQuery.php:199-237 | the join loop runs every join in order over the model and its row, and stops at the first that throws |
| RestActiveQuery.ActiveQuery.JoinPass | src/ActiveQuery.php:200-235 | one pass removes the join's data from the row and, unless empty, populates the relation |
| RestActiveQuery.ActiveQuery.RelatedList | src/ActiveQuery.php:224-230 | the loop instantiates and populates one model per relation row, in order |
| RestActiveQuery.CreatedStopsAtError | src/ActiveQuery.php:192-238 | once a row throws, the whole call throws the same |
| RestActiveQuery.JoinedStopsAtError | src/ActiveQuery.php:200-236 | once a join throws, the whole join loop throws the same |
| RestActiveQuery.RelatedStopsAtError | src/ActiveQuery.php:225-229 | once a relation row throws, the whole inner loop throws the same |
| RestActiveQuery.JoinedKeepsRecord | src/ActiveQuery.php:199-237 | the join loop only fills relations: the class, attributes and old attributes stay as they were |
| RestActiveQuery.CreatedPerRow | src/ActiveQuery.php:192-198 | when the call succeeds on some row the class declares `getRelations()`, and there is exactly one model per row, in row order, each an array row populated from its own row, its old attributes its attributes; without joins nothing else is done |
| RestActiveQuery.CreatedWithoutJoin | src/ActiveQuery.php:192-198 | without joins the call succeeds exactly when every row is an array and, for any row at all, the class declares `getRelations()` |
| RestActiveQuery.NoGetRelationsThrows | src/ActiveQuery.php:193-194 | for a class that does not declare `getRelations()`, a first row that is an array makes the call throw UnknownMethodException, joins or not |
| RestActiveQuery.JoinedRemovesKeys | src/ActiveQuery.php:201 | after the join loop no joined key is left in the row |
| RestActiveQuery.JoinStepCases | src/ActiveQuery.php:201-234 | empty data is skipped; an undeclared relation is populated with []; a declared relation whose class does not resolve is skipped; associative data becomes one model |
| RestActiveQuery.JoinStepList | src/ActiveQuery.php:223-230 | a list of arrays under a declared, resolving relation becomes one related model per element, in order |
| RestActiveQuery.OneWrapsRow | src/ActiveQuery.php:75-78 | a row without an entry 0 is populated as the only row, and its model answered; a class without `getRelations()` throws instead |
| RestActiveQuery.OneTakesFirstOfList | src/ActiveQuery.php:75-78 | a row with an entry 0 is taken as a list of rows, and the model of its first entry answered |
| RestActiveQuery.MergeIntoIntegerKeys | src/ActiveQuery.php:139 | merging integer-keyed entries keeps the earlier entries and appends the new values in order |
| RestActiveQuery.WithAppendsInOrder | src/ActiveQuery.php:150-155 | `with('a', 'b')` keeps the joins already there and appends the relations in argument order |
| LegacyQueryBuilder.Renumber | QueryBuilder.php:210 | `array_shift` keeps every value in order and every string key, and renumbers only the integer keys |
| LegacyQueryBuilder.Shift | QueryBuilder.php:210 | the shifted array is one shorter and holds the remaining values in order |
| LegacyQueryBuilder.BuildHashCondition | QueryBuilder.php:221-232 | the loop over the attributes gives the hash parts of the condition |
| LegacyQueryBuilder.BuildCondition | QueryBuilder.php:199-216 | the method gives the filter, or the exception, that the condition compiles to |
| LegacyQueryBuilder.BuildAndCondition | QueryBuilder.php:249-257 | the loop merges the operands' filters left to right, and stops at the first that throws |
| LegacyQueryBuilder.Build | QueryBuilder.php:65-91 | the method gives the compiled query, or the exception, that the query compiles to |
| LegacyQueryBuilder.PruneKeeps | QueryBuilder.php:80-84 | the loop unsets exactly the entries that are "", [] or null; 0, "0" and false survive |
| LegacyQueryBuilder.MergedClauses | QueryBuilder.php:70-78 | the limit clauses use only `per-page` and `page`, so `array_merge` appends them after the five clauses |
| LegacyQueryBuilder.AssembledParams | QueryBuilder.php:80-90 | `pathInfo` is the trimmed table name, or null when blank; the parameters are exactly the non-blank clauses other than `pathInfo` |
| LegacyQueryBuilder.PrunedWithout | QueryBuilder.php:80-88 | removing a key after pruning gives its value unless blank, and keeps exactly the other non-blank entries |
| LegacyQueryBuilder.CompiledParams | QueryBuilder.php:65-91 | for a query that compiles, `pathInfo` and the parameters are as AssembledParams states |
| LegacyQueryBuilder.PruneFirstKey | QueryBuilder.php:80-84 | a key survives pruning with its value exactly when that value is not blank |
| LegacyQueryBuilder.ZeroLimitKept | QueryBuilder.php:179-183 | a limit of 0 is sent as `per-page` "0" |
| LegacyQueryBuilder.OperatorDispatch | QueryBuilder.php:204-212 | an operator other than AND and IN, in any letter case, throws NotSupportedException "<OP> is not supported."; IN goes to the IN builder with the operands shifted |
| LegacyQueryBuilder.OrIsNotSupported | QueryBuilder.php:206-208 | `['or', a, b]` throws NotSupportedException "OR is not supported." |
| LegacyQueryBuilder.OperatorNamed | QueryBuilder.php:204-205 | an array with a word at key 0 is in operator format, with the word upper-cased as operator |
| LegacyQueryBuilder.EmptyConditionIsEmptyFilter | QueryBuilder.php:200-202 | an empty condition, or one that is not an array, gives no filter |
| LegacyQueryBuilder.HashKeepsScalars | QueryBuilder.php:223-229 | an attribute is in the hash filter exactly when its value is not an array, with the bound parameters substituted into its text |
| LegacyQueryBuilder.NoParamsNoSubstitution | QueryBuilder.php:227 | without bound parameters the value's text is kept as it is |
| LegacyQueryBuilder.PlaceholderReplaced | QueryBuilder.php:227 | the placeholder `:id` bound to 5 becomes "5" |
| LegacyQueryBuilder.ReplaceAbsent | QueryBuilder.php:227 | text that does not contain the search string is left unchanged |
| LegacyQueryBuilder.ShiftList | QueryBuilder.php:210 | shifting a list of two or three values renumbers the rest from 0 |
| LegacyQueryBuilder.InStringColumnUsesFirstCharacter | QueryBuilder.php:237-244 | IN keys its filter by `operands[0][0]`, which for a string column is its first character |
| LegacyQueryBuilder.InWithoutValues | QueryBuilder.php:239-243 | IN without values gives `{column: {in: [-1]}}` |
| LegacyQueryBuilder.HashPartsUnique | QueryBuilder.php:221-232 | the hash filter has no key twice |
| LegacyQueryBuilder.AndOfTwoHashes | QueryBuilder.php:249-257 | `['and', a, b]` of two hash operands is the merge of their filters, first before second |
| LegacyQueryBuilder.AndLaterOperandWins | QueryBuilder.php:252-254 | for an attribute both operands set, the later operand's value wins |
| LegacyCommand.DataOf | Connection.php:243-248 | an OK response gives its decoded data, any other gives false |
| LegacyCommand.HeadAnswersHeaders | Connection.php:181-184 | a HEAD request carries the data as its headers with no URL parameters and no body, and answers the response headers even for a status that is not OK, where the other methods answer false |
| LegacyCommand.CallDataPlacement | Connection.php:236-240 | non-empty data travels in the URL exactly for GET, in the headers exactly for HEAD, and in the body exactly for the other methods |
| LegacyCommand.Command.constructor | Command.php:24-39 | the command holds the given connection, primary key, path and parameters |
| LegacyCommand.Command.Call | Command.php:89 | one request is sent, the data in the URL for GET, in the headers for HEAD and in the body otherwise; HEAD answers the response headers, the others the connection's OK-or-false data |
| LegacyCommand.Command.QueryInternal | Command.php:88-90 | path and parameters go to the connection unchanged, in one request of any method, HEAD answering the headers |
| LegacyCommand.Command.QueryAll | Command.php:56-58 | one GET of the path with the parameters |
| LegacyCommand.Command.QueryOne | Command.php:63-79 | the single key's value from the filter is appended to the path, the parameters are sent unchanged, in one GET |
| LegacyCommand.Command.Execute | Command.php:99-101 | one request of the given method, HEAD included, with the path and the parameters |
| LegacyCommand.Command.Insert | Command.php:111-114 | the path becomes the model, and one POST of the columns is sent there |
| LegacyCommand.Command.Update | Command.php:125-132 | the path becomes `model/id`, or the model for a falsy id, and one PUT of the data is sent there |
| LegacyCommand.Command.Delete | Command.php:142-149 | the path becomes `model/id`, or the model for a falsy id, and one DELETE with no data is sent there |
| LegacyCommand.FoldAppendsScalarKey | Command.php:70-74 | a single key set to a scalar in the filter is appended to the path, whatever its truthiness |
| LegacyCommand.FoldLeavesPath | Command.php:67-76 | a composite key, no filter, or a key unset or an array in the filter leaves the path alone |
| LegacyCommand.FoldedPathExtends | Command.php:72-74 | the path changes exactly when a key value is folded, and then grows by '/' and that value's text |
| LegacyCommand.ZeroKeyDiffersFromSrc | Command.php:72-74 | a key value of 0 asks for `rest-models/0` and keeps the filter, where the `src/` command keeps `rest-models` and empties the filter |
| LegacyActiveRecord.AttributeOf | ActiveRecord.php:224-226 | a name reads as its value when set and not null, and as null otherwise |
| LegacyActiveRecord.Admitted | ActiveRecord.php:166-173 | the constructor stores only allowed names |
| LegacyActiveRecord.FindCondition | ActiveRecord.php:135-149 | the condition handed to the query is associative; only a non-associative condition on a class without a primary key throws |
| LegacyActiveRecord.Record.constructor | ActiveRecord.php:166-173 | the record stores exactly the allowed entries of the input, in the default scenario |
| LegacyActiveRecord.Record.SetAttribute | ActiveRecord.php:237-243 | a known name is written; any other throws InvalidParamException "<class> has no attribute named "<name>"." and changes nothing |
| LegacyActiveRecord.Record.Unset | ActiveRecord.php:314-320 | a known name is removed and reads as null; any other goes to the parent and the attributes stay |
| LegacyActiveRecord.Record.GetPrimaryKey | ActiveRecord.php:178-190 | the method gives the primary key value PrimaryKeyShape describes |
| LegacyActiveRecord.PutAllowed | ActiveRecord.php:237-239 | writing an allowed name keeps every stored name allowed |
| LegacyActiveRecord.DeleteAllowed | ActiveRecord.php:314-316 | removing a name keeps every stored name allowed |
| LegacyActiveRecord.HasAttributeIsAllowed | ActiveRecord.php:252-254 | for a record built by the constructor, `hasAttribute` is exactly membership of the allow-list |
| LegacyActiveRecord.AdmittedGet | ActiveRecord.php:167-171 | the constructor keeps the last value of each allowed name and drops every other name |
| LegacyActiveRecord.AttributeOfPut | ActiveRecord.php:224-243 | after a write the name reads the written value, unless null, and every other name as before |
| LegacyActiveRecord.AttributeOfDelete | ActiveRecord.php:224-226 | after `__unset` the name reads as null and every other name as before |
| LegacyActiveRecord.KeyValuesGet | ActiveRecord.php:183-188 | the key map has exactly the key names, each with its attribute's value or null |
| LegacyActiveRecord.PrimaryKeyShape | ActiveRecord.php:178-190 | a single key gives its value unless an array is asked for; otherwise a map of every key name to its value |
| LegacyActiveRecord.FindByKeyValue | ActiveRecord.php:138-148 | a scalar condition becomes `[first key => value]`; an associative condition is used as it is |
| LegacyActiveQuery.ActiveQuery.constructor | ActiveQuery.php:134-156 | a new query takes the model class's settings, with no selection, condition, limit, offset or pagination, and is not a sub-query |
| LegacyActiveQuery.ActiveQuery.Clone | ActiveQuery.php:216 | the clone is a new query with the same class, transport, selection, condition, limit, offset, pagination and flag |
| LegacyActiveQuery.ActiveQuery.Select | ActiveQuery.php:250-254 | the selected fields are replaced by the given ones |
| LegacyActiveQuery.ActiveQuery.Where | ActiveQuery.php:259-263 | the conditions are replaced by the given ones |
| LegacyActiveQuery.ActiveQuery.Limit | ActiveQuery.php:268-272 | the limit becomes the value cast to an integer, with PHP's `(int)`: the leading numeral of a string, fraction and exponent included, rounded toward zero |
| LegacyActiveQuery.ActiveQuery.Offset | ActiveQuery.php:277-281 | the offset becomes the value cast to an integer, as for the limit |
| LegacyActiveQuery.ActiveQuery.SetSubQueryFlag | ActiveQuery.php:492-496 | the query is flagged as a sub-query |
| LegacyActiveQuery.ActiveQuery.BuildQueryParams | ActiveQuery.php:421-440 | the loop over the conditions gives the query parameters QueryParamsGet describes |
| LegacyActiveQuery.ActiveQuery.SetPagination | ActiveQuery.php:396-404 | every mapped pagination key is set from the server's name, or to null |
| LegacyActiveQuery.ActiveQuery.CreateModels | ActiveQuery.php:377-386 | one new record per element, in order, each built from its element |
| LegacyActiveQuery.ActiveQuery.Populate | ActiveQuery.php:330-368 | a status of 400 or more throws HttpException; a list gives one record per element; an associative body gives the enveloped collection and sets the pagination, or one record |
| LegacyActiveQuery.ActiveQuery.Request | ActiveQuery.php:294-306 | one request is sent, the data in the headers for HEAD, and its response returned |
| LegacyActiveQuery.ActiveQuery.All | ActiveQuery.php:162-171 | one GET of the collection URL with the parameters under `query`, populated as a collection |
| LegacyActiveQuery.ActiveQuery.One | ActiveQuery.php:177-190 | one GET of the collection URL with the parameters under `query` and the limit key set to 1, populated as one record |
| LegacyActiveQuery.ActiveQuery.ProbeQuery | ActiveQuery.php:216-217 | the probe is a new clone flagged as a sub-query, with offset 0 and limit 1 |
| LegacyActiveQuery.ActiveQuery.ProbeAll | ActiveQuery.php:217-219 | the probe fetches one page, and its own `count()` then gives the pagination total it remembered, or 0 |
| LegacyActiveQuery.ActiveQuery.Probe | ActiveQuery.php:215-220 | the probing sub-query sends one GET and counts what its page tells |
| LegacyActiveQuery.ActiveQuery.HeadCount | ActiveQuery.php:210-212 | one HEAD request is sent to the collection URL with the parameters, under `query`, as a header, and the count header of its answer read |
| LegacyActiveQuery.ActiveQuery.HeadRequest | ActiveQuery.php:210-211 | the HEAD request of `count()` goes to the collection URL with the parameters under `query` as its only header, and with no URL parameters and no body |
| LegacyActiveQuery.ActiveQuery.ServerCount | ActiveQuery.php:209-222 | the HEAD count header gives the count; when it is empty and there is a pagination envelope, the probe's count is used |
| LegacyActiveQuery.ActiveQuery.Count | ActiveQuery.php:200-223 | a remembered pagination gives its total without a request; a sub-query gives 0 without a request; otherwise the server is asked |
| LegacyActiveQuery.ActiveQuery.Create | ActiveQuery.php:229-234 | one POST of the record's attributes to the collection URL, populated as one record |
| LegacyActiveQuery.ActiveQuery.Update | ActiveQuery.php:240-245 | one PUT of the record's attributes to its element URL, populated as one record |
| LegacyActiveQuery.ActiveQuery.Save | ActiveRecord.php:195-205 | the create scenario sends the POST of `create()`, the update scenario the PUT of `update()`, each exactly one request, and answers what `populate()` makes of that request's response, read as one record, with fresh model objects; any other scenario, the default one included, sends nothing and answers no result |
| LegacyActiveQuery.ProbeOutcome | ActiveQuery.php:217-219 | a populated probe page gives its error, or the total it remembered, or 0 |
| LegacyActiveQuery.SlashAdded | ActiveQuery.php:480-485 | adding a trailing slash keeps the text, ends it with one slash, and adding again changes nothing |
| LegacyActiveQuery.SlashRemoved | ActiveQuery.php:480-485 | removing takes off at most one slash, and adding one back gives what adding to the original gives |
| LegacyActiveQuery.ElementUnderCollection | ActiveQuery.php:451-468 | an element URL is the collection URL, a slash, and the id without its trailing slash |
| LegacyActiveQuery.WhereParamsGet | ActiveQuery.php:424-427 | each condition reaches the parameters with its last value, cast to an integer when `is_numeric` holds: integers, and strings holding one decimal numeral (sign, fraction and exponent allowed) with only white space around it, which `(int)` rounds toward zero |
| LegacyActiveQuery.QueryParamsGet | ActiveQuery.php:421-440 | the offset key wins over the limit key, which wins over the fields key, which wins over the conditions |
| LegacyActiveQuery.PaginatedGet | ActiveQuery.php:396-401 | a mapped key holds the value under its server-side name, or null; an unmapped key keeps its old value |
| LegacyActiveQuery.LastNameTotal | ActiveRecord.php:39-45 | under the default mapping `totalCount` is read from the server's `total` |
| LegacyActiveQuery.TotalCountAfterEnvelope | ActiveQuery.php:201-202 | after a page, the remembered count is the server's `total` cast to an integer, or 0 without one |
| LegacyActiveQuery.HeaderCountExamples | ActiveQuery.php:222 | a count header "42" reads as 42, and a missing or empty one as 0 |
| Php.IntCastOfIntToString | src/QueryBuilder.php:238 | `(int)` of an integer's decimal text gives the integer back, so `intval((string)$offset)` of an integer offset changes nothing |
| Php.DecimalText | ActiveQuery.php:425 | a decimal with digits on either side of its point, an optional minus sign and white space around it is numeric, and `(int)` drops its fraction, rounding toward zero on both sides of 0 |
| Php.ExponentText | ActiveQuery.php:425 | digits followed by an exponent `e<n>` are numeric, and `(int)` multiplies them by ten to the n |
| Php.TrailingText | ActiveQuery.php:425 | digits followed by text that cannot continue a numeral are not numeric, yet `(int)` still reads the digits |
| Php.DanglingExponent | ActiveQuery.php:425 | an `e` with no digit after it is not an exponent: the text is not numeric, and `(int)` reads the digits before it |
| Php.LonePoint | ActiveQuery.php:425 | a point with no digit on either side is not a numeral: not numeric, and cast to 0 |
| Php.TruncatedDropsFraction | ActiveQuery.php:269 | without an exponent the digits after the point never change the cast value, whatever they are |
| LegacyActiveQuery.EnvelopeElements | ActiveQuery.php:345-363 | an associative body gives the collection envelope's elements, none without an envelope, or itself as one record |
| LegacyActiveQuery.ListBodyIsCollection | ActiveQuery.php:346-347 | a list body gives one record per element, whatever `asCollection` says, and sets no pagination |
| LegacyActiveQuery.ErrorMessage | ActiveQuery.php:336-342 | an error status throws with the text body, or with the body's `message` |
| LegacyActiveQuery.ProbeReadsEnvelopeTotal | ActiveQuery.php:215-219 | a probe answered with an empty collection and a pagination total of n counts n |
| LegacyActiveQuery.ProbeCountPage | ActiveQuery.php:355-360 | a probe page carrying a pagination array counts what the remembered pagination gives |
| LegacyActiveQuery.EnvelopeSplit | ActiveQuery.php:349-360 | a body with an empty collection and a pagination array under the two envelopes gives no records and that pagination |

## Left out

- HTTP transport: sending, `getHandler()`, the static handler, profiling and debug logging in `src/Connection.php` are not modelled. `Http.Transport` stands for the HTTP client, and its answers are a function of the request.
- `Connection.php` (root lineage) is modelled only through the answers of its verb methods: `request()` answers data or false (`LegacyCommand.DataOf`), and `head()` answers the response headers (`LegacyCommand.ReplyOf`). Its `get()` turns an exception into false. That cannot happen in the model, because `Http.Transport` always answers. Its profiling, `getHandler()` and `createCommand()` are left out.
- `src/Connection.php`: `getAuth()`/`setAuth()` resolve a foreign closure and are left out. So are `__sleep()`, `getDriverName()`, `createCommand()` and `getQueryBuilder()`.
- RestConnection.Connection.Request: a transport failure, which the source turns into RestException "Request failed", is not modelled. `Http.Transport` always answers. For HEAD, the Authorization header is handed to the client's `head()` as request options. Options are not modelled, so the request carries no header. The branch at `src/Connection.php:473-476` compares the upper-cased method with `'head'`, so it never runs, and the model leaves it out.
- URL assembly of `request()`: the URL is modelled as the path, with GET data as query parameters. `http_build_query` and the joining to the base URL are not modelled.
- Framework helpers are parameters or function fields, with nothing assumed about them: `Inflector::pluralize`, `Inflector::camel2id`, class resolution by reflection (a partial map from relation name to class) and `ArrayHelper::index`.
- `ArrayHelper::isAssociative` is concrete: a non-empty array whose keys are all strings.
- `parseOperator`, `buildValues`, `createConditionFromArray` and `buildExpression` are not modelled as functions. The condition tree is modelled after parsing, with its operands and built values already in the datatypes.
- `src/conditions/ConditionBuilderTrait.php` is not part of this model. It is a lookup into a framework table that is not visible.
- RestQueryBuilder.CeilDiv: PHP's float division and `ceil` are modelled as exact integer ceiling division. Float rounding for very large operands is not captured.
- `src/Query.php`, `Query.php`, `ActiveDataProvider.php`, `src/RestDataProvider.php`, `src/ActiveFixture.php`, the interfaces, the exception classes and the tests are not part of this model.
- Wiring methods are left out: `getRawUrl()`, `find()`, `findAll()`, `findOne()`, `getDb()`, `modelName()`, `primaryKey()`, `getApiUrl()`, `getResourceName()` and `createCommand()`. So are `src/ActiveQuery.php`'s `all()` and `prepare()`. Their results appear as parameters (model class, path, transport).
- `src/ActiveRecord.php` `insert()`/`update()`: validation, transactions and the framework's dirty tracking are not modelled. The dirty values and the outcome of `beforeSave()`/`beforeDelete()` are parameters. `afterSave()`, `afterDelete()` and `afterFind()` events are not modelled.
- `ActiveRecord.php` magic accessors `__get`, `__set` and `__isset`, and `attributes()`, are not modelled separately. For a known attribute they forward to `getAttribute()`, `setAttribute()` and `hasAttribute()`, which are modelled. `__set` with an unknown name goes to the parent's `__set` instead, which throws UnknownPropertyException. The model's `SetAttribute` throws InvalidParamException there, as `setAttribute()` does.
- LegacyActiveRecord.Record.SetScenario: the framework's scenario setter, with no property of its own.
- RestActiveQuery.ActiveQuery.CreateModels: records are built as values. Object identity and aliasing between a model and its related models are not captured.
- RestActiveQuery.JoinStep: a closure or array join entry used as an array offset is modelled as a TypeError outcome. The exact PHP message is approximate.
- RestActiveQuery.ActiveQuery.One: requires the row to be empty or an array. A scalar row from the command is not modelled.
- RestActiveRecord.Record.constructor: an array-valued attribute name under an integer key is treated as an unknown name. Numeric-string keys are not coerced to integers anywhere.
- Resetting relation dependencies when an attribute is written is framework behaviour and is not modelled.
- Configuration arrays passed to constructors are modelled as explicit parameters.
- Cache expiry and cache dependencies are not modelled. `RestConnection.Cache` stores values for ever.
- `ActiveRecord.php:108`: `find()` creates an `ActiveActiveQuery`, a class that is not part of this model. `LegacyActiveQuery.ActiveQuery.Save` and the rest of `LegacyActiveQuery` assume it is the `ActiveQuery` of `ActiveQuery.php`.
- RestCommand.Items: `ArrayHelper::getValue` is modelled for arrays and header collections, including its dotted paths. Numeric-string keys are not coerced. Object properties of a header collection (`count`, `iterator`) are not read. A header is read through `ArrayAccess` as its first value.
- RestConnection.Connection.Cache: the callable is a pure function of the connection's settings. Requests it sends and cache entries it writes are not modelled; only its outcome and the scope stack are.
- PHP warnings and notices are treated as values, as without Yii's ErrorHandler: an undefined index reads as null (a missing filter token gives the key `""`), `foreach` over a non-array runs no iteration, and an array's text is "Array". With the ErrorHandler such a warning would be an ErrorException; in PHP 8 some of these are a TypeError instead. This applies to `Conditions.Token`, `RestActiveRecord.Record.InsertInternal`, `Php.StrVal` and `LegacyQueryBuilder.OperatorOf`.
- Php.IsNumeric, Php.IntCast: there are no float values in the model. `(int)` of a numeric string is the numeral's exact value rounded toward zero, whereas PHP first reads it as a 64-bit float; for numerals beyond 2^53 or with many digits the two can differ. Integers are unbounded, so PHP's clamping of out-of-range casts and the float that `is_numeric` strings like "1e400" give are not modelled. Hexadecimal, octal and binary strings are not numeric in PHP 8, and are not numeric here either.
- LegacyActiveQuery.ActiveQuery.BuildQueryParams, LegacyActiveQuery.WhereParamsGet: a numeric condition value becomes `Int` of its truncated value. PHP's `(int)` gives the same integer, so only the float-precision gap of the line above applies.
- RestActiveRecord.Record.PopulateRecord: a row entry that names no column but a property the record can set (`scenario`, `oldAttributes`, `isNewRecord` and the like) is assigned through the framework's setter by `populateRecord()`. The model ignores such entries. It assigns only columns.
- LegacyActiveQuery.HttpError: the HttpException is modelled by its class and message. The status code it carries (`ActiveQuery.php:338-342`) is not part of `Php.Thrown`.
- Exception classes and messages follow PHP 8.0 and yii2 2.0.4x.
