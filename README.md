# cohesion-ruby association client, modelled in Dafny

This project models the Ruby client of the Cohesion association graph
service. An association is a directed edge of some kind between two entities,
each entity being a `(kind, id)` pair. Every edge has a data bag and a
creation time. The model has four layers:

- `Cohesion::Entity` and `Cohesion::Association` (`entity.dfy`,
  `association.dfy`): the values, their equality, and their two wire forms.
  `from_hash` and `list_from_hash` read the response shape; `to_hash` builds
  the request shape.
- `Cohesion::API::AssociationV1` (`associations_v1.dfy`, with the URL
  construction in `paths.dfy`) has these parts:
  - the entity normalisation, which creates an entity from an array, and also
    writes a string id back into an entity object the caller passed in;
  - the two argument guards;
  - the request each operation sends: verb, path, query string and body;
  - how each answer, a 404 or a transport failure becomes a return value or
    an exception.
- The Hystrix commands of `lib/cohesion/commands.rb` (`commands.dfy`). Each
  binds its arguments when constructed. `Run` performs one V1 operation,
  except `UpdateAssociationsCmd`, whose `Run` does a fetch, then an update,
  then merges the result locally. `Execute` returns the operation's value,
  or the command's fixed fallback when `Run` raises.
- What the association layer sees of `Cohesion::Client` (`transport.dfy`).
  This is a `Client` object that records every request it sends, in `trace`.
  Its answers come from an abstract `Server` function that may depend on
  everything sent before.

Ruby values are modelled as follows:

- Decoded JSON bodies, data bags and association kinds are `Values.Json`.
- Scalars (nil, booleans, integers, strings) are `Values.Scalar`.
- An exception is the `Err` case of a `Result`. `ArgumentError` carries the
  source's message.
- Ruby's `to_s`, `[]`, `[0]`, `each`, `has_key?`, `merge` and truthiness are
  written out for the receivers they meet here. So a malformed response fails
  where the Ruby code would raise, and succeeds where Ruby would carry on.
  For example, `'abc'['id']` is nil in Ruby, so the model does not fail there.
- `DateTime.rfc3339` and `DateTime.now` are parameters.

Every V1 operation has a specification function, `ApiV1.*Spec`. From the
server, the earlier requests and the arguments as they were on entry, it
states two things:

- `sent`: exactly which requests the call sends;
- `result`: what the call returns or raises.

Each method of `ApiV1.AssociationV1` and each command's `Run` and `Execute`
is proved to append exactly `sent` to the client's trace and to return
`result`. The proof also covers the in-place id normalisation, including the
case where `from` and `to` are the same object. Lemmas prove the rest:

- path and query construction: the order and values of the query
  parameters, and that a URL decodes back into its path segments and
  parameters;
- parsing: the list parse stops at the first bad target, `from_hash`
  agrees with the head of `list_from_hash`, and `to_hash` round-trips
  through `from_hash`;
- the update-with-merge of `UpdateAssociationsCmd`: the keys it overwrites
  and the keys it keeps, and that it sends no update when the fetch finds
  nothing.

Two behaviours of the code worth knowing:

- `update` (associations.rb:76-84) has no check that `from` and `to` differ, so
  it sends the POST even for a self-edge.
- The commands' fallback also replaces the `ArgumentError`s raised by the
  guards. `Execute` returns the fallback for any exception `Run` raises,
  because nothing in `commands.rb` makes argument errors an exception.

## Model

| member | source | states |
|---|---|---|
| Values.ToS | lib/cohesion/api/v1/associations.rb:16 | `to_s` of a string is the string itself; `to_s` of an integer is a decimal numeral that reads back as that integer |
| Values.ToSCanonical | lib/cohesion/api/v1/associations.rb:16 | `to_s` of an integer is the canonical numeral: digits with no leading zero, preceded by a minus sign exactly when the integer is negative, and it reads back as that integer |
| Text.NatToDecimalCanonical | lib/cohesion/api/v1/associations.rb:16 | the digits of a natural number have no leading zero, and are `0` exactly for zero |
| Text.IntToDecimalCanonical | lib/cohesion/api/v1/associations.rb:16 | `Integer#to_s` in base 10 is canonical, with a minus sign exactly for negative numbers |
| Values.Lookup | lib/cohesion/association.rb:25-28 | `h[key]` on a hash is the value stored under `key`, or nil when the key is absent |
| Values.Index | lib/cohesion/api/v1/associations.rb:152 | `recv[key]` succeeds exactly on hashes and strings, and then equals `Lookup`; on any other receiver it raises `TypeMismatch` |
| Values.First | lib/cohesion/association.rb:25 | `h['to'][0]` is the array's first element, or nil for an empty array; it raises exactly on nil and booleans |
| Values.Elements | lib/cohesion/association.rb:42 | the elements `each` hands to the block: an array's items in order; no other receiver except an empty hash gets through |
| Values.HasKey | lib/cohesion/commands.rb:163-164 | `has_key?` succeeds only on a hash, and is true exactly when the key is present |
| Values.Merge | lib/cohesion/commands.rb:163 | `merge` of two hashes: the key set is the union, keys of the argument win, and the other keys keep their values; any other receiver or argument raises |
| Entities.FromHash | lib/cohesion/entity.rb:11-13 | succeeds exactly when `h` is indexable and `h['id']` and `h['kind']` are scalars, and then carries those values unchanged |
| Entities.ToHash | lib/cohesion/entity.rb:15-17 | the hash has exactly the keys `id` and `kind`, and `from_hash` reads the entity back from it |
| Entities.Equals | lib/cohesion/entity.rb:19-25 | `==` is true exactly for an Entity with the same id and kind; false for a non-Entity |
| Entities.EqualsReflexiveSymmetric | lib/cohesion/entity.rb:19-25 | entity equality is reflexive and symmetric |
| Associations.Equals | lib/cohesion/association.rb:15-22 | `==` is true exactly for an Association equal in from, kind, to, data and time |
| Associations.ParseTime | lib/cohesion/association.rb:33 | the time parses exactly when it is a string the parser accepts, and is the parser's value |
| Associations.FromTarget | lib/cohesion/association.rb:43-49 | one element of `to` becomes an association with the response's from and kind, its `target` entity, its `data` and its parsed `time` |
| Associations.FromHash | lib/cohesion/association.rb:24-35 | `from_hash` succeeds only on an indexable response whose `to[0]` exists; from is `Entity.from_hash(h['from'])`, kind is `h['kind']`, and the rest comes from the first target |
| Associations.ParseTargets | lib/cohesion/association.rb:42-50 | succeeds exactly when every target parses, giving one association per target in order; otherwise it raises the error of the first target that fails |
| Associations.FirstFailureUnique | lib/cohesion/association.rb:42-50 | at most one element is the first one that fails |
| Associations.ListOf | lib/cohesion/association.rb:37-52 | a non-indexable response raises `TypeMismatch`; a bad `from` raises before any target is read; a `to` without `each` raises; a result has one association per element of `to` |
| Associations.ListFromHash | lib/cohesion/association.rb:37-52 | the `each` loop that appends to `list` computes exactly `ListOf`, the parse-or-first-failure of every target |
| Associations.ListShape | lib/cohesion/association.rb:37-52 | a successful list has one association per element of `to`, all with the response's from and kind, each parsed from its own element |
| Associations.EmptyTargets | lib/cohesion/association.rb:40-51 | an empty `to` array, or an empty hash, gives the empty list |
| Associations.FromHashIsHead | lib/cohesion/association.rb:24-52 | when `list_from_hash` gives a non-empty list, `from_hash` gives its first element |
| Associations.FromHashReadsFirstOnly | lib/cohesion/association.rb:25 | `from_hash` ignores every element of `to` after the first |
| Associations.WireHash | lib/cohesion/association.rb:54-62 | `to_hash` always has `from` (the entity hash) and `kind`; `to` appears exactly when there is a target entity; `data_bag` appears exactly when the data is neither nil nor false |
| Associations.ToHash | lib/cohesion/association.rb:54-62 | filling the hash key by key produces exactly `WireHash` |
| Transport.Deliver | lib/cohesion/client.rb:20-24 | the raise-error middleware: the body exactly on success, `ResourceNotFound` exactly on a 404, `ClientError` on every other failure |
| Transport.Client.Send | lib/cohesion/client.rb:36-80 | one request is appended to the trace, and the answer is the server's answer to it after the earlier requests |
| Paths.ResourcePath | lib/cohesion/api/v1/associations.rb:46-47 | the edge path, defined as the `/`-join of the root and the five interpolated parts; no contract of its own; `ResourcePathSpelledOut` states its spelling |
| Paths.CollectionPath | lib/cohesion/api/v1/associations.rb:70-71 | the collection path, defined as the `/`-join of the root and four interpolated parts; no contract of its own; `CollectionPathSpelledOut` states its spelling |
| Paths.CountPath | lib/cohesion/api/v1/associations.rb:150-151 | the count path; no contract of its own; `CollectionPathSpelledOut` states that it is the collection path plus `/count` |
| Paths.ListPath | lib/cohesion/api/v1/associations.rb:132-142 | the collection path followed by the rendered list query; no contract of its own; `ListAddress`, `ListParamsValues`, `ListParamsOrdered` and `ListUrlRoundTrip` state what it holds |
| Paths.FetchPath | lib/cohesion/api/v1/associations.rb:116-120 | the edge path followed by the rendered fetch query; no contract of its own; `FetchPathSpelledOut` and `FetchUrlRoundTrip` state what it holds |
| Paths.ResourcePathSpelledOut | lib/cohesion/api/v1/associations.rb:46-47 | the edge path is `/v1/associations/<from kind>/<from id>/<kind>/<to kind>/<to id>` with each part through `to_s` |
| Paths.CollectionPathSpelledOut | lib/cohesion/api/v1/associations.rb:148-151 | the collection path is `/v1/associations/<from kind>/<from id>/<kind>/<bulk kind>`, and the count path is that path plus `/count` |
| Paths.Render | lib/cohesion/api/v1/associations.rb:132-142 | each parameter is written `key=value`, in order |
| Paths.FindAppend | lib/cohesion/api/v1/associations.rb:132-142 | in a concatenation of parameter lists, the first occurrence of a key wins |
| Paths.ListParams | lib/cohesion/api/v1/associations.rb:132-133 | the list query always starts with `sort` and then `limit` |
| Paths.ListParamsOrdered | lib/cohesion/api/v1/associations.rb:132-142 | the list query's keys are distinct, in the order sort, limit, offset, cursor, priority |
| Paths.ListParamsValues | lib/cohesion/api/v1/associations.rb:132-142 | sort and limit are always present; offset exactly when it is not 0; cursor and priority exactly when they are neither nil nor empty; each carries its argument's value |
| Paths.FetchParams | lib/cohesion/api/v1/associations.rb:118-120 | the fetch query holds `priority`, and only when it is neither nil nor empty |
| Paths.Cut | lib/cohesion/api/v1/associations.rb:132-142 | splitting at the first separator gives back the string, and the head holds no separator |
| Paths.QueryRoundTrip | lib/cohesion/api/v1/associations.rb:132-142 | a query string whose keys and values hold no `&` and whose keys hold no `=` decodes back into its parameters |
| Paths.UrlRoundTrip | lib/cohesion/api/v1/associations.rb:116-120 | a path built from segments without `/` or `?`, plus such a query, decodes back into both |
| Paths.ListUrlRoundTrip | lib/cohesion/api/v1/associations.rb:130-142 | the list URL decodes into the collection segments and the list query |
| Paths.FetchUrlRoundTrip | lib/cohesion/api/v1/associations.rb:106-120 | the fetch URL decodes into the edge segments and the fetch query |
| Paths.FetchPathSpelledOut | lib/cohesion/api/v1/associations.rb:116-120 | the fetch path is the edge path, followed by `?priority=<priority>` exactly when the priority is present |
| Paths.AppendParam | lib/cohesion/api/v1/associations.rb:134-142 | appending `&key=value` to a path, or leaving it as it is, equals rendering the query with that parameter optionally added |
| Paths.ListQueryStart | lib/cohesion/api/v1/associations.rb:132-133 | `?sort=..&limit=..` is the rendering of those two parameters |
| Paths.ListDefaults | lib/cohesion/api/v1/associations.rb:130-142 | with the default arguments (desc, 30, 0, empty cursor and priority), the list path is the collection path followed by `?sort=desc&limit=30` |
| ApiV1.Normalize | lib/cohesion/api/v1/associations.rb:11-20 | the normalised entity's id is always a string; an array `[kind, id]` gives kind `e[0]` and id `e[1].to_s`, with nil past the end; an entity keeps its kind and gets `id.to_s` |
| ApiV1.NormalizeIdempotent | lib/cohesion/api/v1/associations.rb:11-20 | normalising an already normalised entity changes nothing |
| ApiV1.NormalizeKeepsStrings | lib/cohesion/api/v1/associations.rb:16 | an entity with a string id is left as it is |
| ApiV1.AssociationV1.NormalizeEntity | lib/cohesion/api/v1/associations.rb:11-20 | returns `Normalize` of the argument on entry, and writes it back into an entity object |
| ApiV1.AssociationV1.NormalizePair | lib/cohesion/api/v1/associations.rb:41-42 | normalising from and then to gives each its own normalisation, even when both are one object |
| ApiV1.SecondNormalization | lib/cohesion/api/v1/associations.rb:41-42 | the second normalisation sees the first one's write-back only through aliasing, and its result is the same |
| ApiV1.DifferentEntities | lib/cohesion/api/v1/associations.rb:25-30 | true exactly when kind or id differ; otherwise ArgumentError 'from and to entities cannot be the same' |
| ApiV1.EmptyData | lib/cohesion/api/v1/associations.rb:34-38 | ArgumentError 'no associations to be updated' exactly when the data is `{}`; false otherwise |
| ApiV1.Command | lib/cohesion/api/v1/associations.rb:61-64 | one request is sent; the call returns true exactly when the server answers, and otherwise raises the transport's error |
| ApiV1.CreateSpec | lib/cohesion/api/v1/associations.rb:40-53 | a self-edge raises ArgumentError with no request; otherwise one PUT of data to the edge path, returning the association (kind, normalised entities, data, now) exactly when the PUT succeeds |
| ApiV1.DeleteSpec | lib/cohesion/api/v1/associations.rb:55-65 | a self-edge raises ArgumentError with no request; otherwise one DELETE of the edge path, returning true |
| ApiV1.BulkDeleteSpec | lib/cohesion/api/v1/associations.rb:67-74 | one DELETE of the collection path, with no guard, returning true |
| ApiV1.UpdateSpec | lib/cohesion/api/v1/associations.rb:76-84 | one POST of data to the edge path, with no guard, returning true |
| ApiV1.MultiUpdateSpec | lib/cohesion/api/v1/associations.rb:86-104 | `{}` raises ArgumentError with no request; otherwise one request with the given verb and data to the collection path, returning true |
| ApiV1.FetchSpec | lib/cohesion/api/v1/associations.rb:106-128 | a self-edge gives nil with no request; otherwise one GET of the fetch path; a 404 gives nil, another failure raises, and an answer gives `from_hash` of the body |
| ApiV1.CursorOf | lib/cohesion/api/v1/associations.rb:145 | `response['cursor']` or else `''`: the answer's `cursor` when truthy, `''` when it is absent, nil or false; it raises exactly when the answer is not indexable |
| ApiV1.ListSpec | lib/cohesion/api/v1/associations.rb:130-146 | one GET of the list path; a transport failure raises; an answer gives a listing exactly when both its cursor and `list_from_hash` succeed, holding those two values; otherwise the cursor's error, then the parse's error, in that order |
| ApiV1.CountSpec | lib/cohesion/api/v1/associations.rb:148-153 | one GET of the count path; it succeeds exactly when the answer is indexable, and returns its `count`; a 404 raises `ResourceNotFound` and any other transport failure `ClientError`, as the client raises them; an answer that is not indexable raises `TypeMismatch` |
| ApiV1.Operation | lib/cohesion/api/v1/associations.rb:157-161 | a batch element is `to_hash` with `operation` added and every other key kept |
| ApiV1.BatchBody | lib/cohesion/api/v1/associations.rb:155-162 | the batch body has one element per operation, in the caller's order |
| ApiV1.BatchSpec | lib/cohesion/api/v1/associations.rb:155-165 | one POST of the body to `/v1/associations/batch`, returning true |
| ApiV1.ListAddress | lib/cohesion/api/v1/associations.rb:132-142 | the path built by appending each optional parameter in turn equals `ListPath` |
| ApiV1.AssociationV1.Create | lib/cohesion/api/v1/associations.rb:40-53 | sends exactly `CreateSpec`'s requests and returns its result; the entity objects hold their normalised values |
| ApiV1.AssociationV1.Delete | lib/cohesion/api/v1/associations.rb:55-65 | sends exactly `DeleteSpec`'s requests and returns its result; the entity objects hold their normalised values |
| ApiV1.AssociationV1.BulkDelete | lib/cohesion/api/v1/associations.rb:67-74 | sends exactly `BulkDeleteSpec`'s request and returns its result |
| ApiV1.AssociationV1.Update | lib/cohesion/api/v1/associations.rb:76-84 | sends exactly `UpdateSpec`'s request and returns its result |
| ApiV1.AssociationV1.MultiUpdate | lib/cohesion/api/v1/associations.rb:86-104 | sends exactly `MultiUpdateSpec`'s requests; `from` is untouched when the data check fails |
| ApiV1.AssociationV1.BatchUpdate | lib/cohesion/api/v1/associations.rb:86-94 | `MultiUpdate` with PATCH |
| ApiV1.AssociationV1.BulkUpdate | lib/cohesion/api/v1/associations.rb:96-104 | `MultiUpdate` with POST |
| ApiV1.AssociationV1.Fetch | lib/cohesion/api/v1/associations.rb:106-128 | sends exactly `FetchSpec`'s requests and returns its result, with the 404 rescued as nil |
| ApiV1.AssociationV1.List | lib/cohesion/api/v1/associations.rb:130-146 | sends exactly `ListSpec`'s request and returns its result |
| ApiV1.AssociationV1.Count | lib/cohesion/api/v1/associations.rb:148-153 | sends exactly `CountSpec`'s request and returns its result, including the error it names for each failure |
| ApiV1.AssociationV1.Batch | lib/cohesion/api/v1/associations.rb:155-165 | the loop builds exactly `BatchBody`, and the call sends exactly `BatchSpec`'s request |
| Commands.SortOrDefault | lib/cohesion/commands.rb:53-55 | the kept sort order is never empty: the caller's when non-empty, `desc` otherwise |
| Commands.SortOrDefaultIdempotent | lib/cohesion/commands.rb:53-55 | passing a kept sort order to the constructor again keeps it |
| Commands.Projected | lib/cohesion/commands.rb:162-166 | from, to and time are kept; the kind is replaced exactly when `new_assoc_kind` is given; with `data_bag` the bag is the union in which the given keys win; without either key the association is unchanged |
| Commands.ProjectedMergesBag | lib/cohesion/commands.rb:163 | merging `{update: true}` into `{update: false, value: 'val'}` gives `{update: true, value: 'val'}` |
| Commands.ProjectedRenames | lib/cohesion/commands.rb:163-164 | a new kind and a bag given together both take effect |
| Commands.UpdateRunSpec | lib/cohesion/commands.rb:153-167 | a failed fetch or a nil result is returned as it is, with no update sent; otherwise exactly one POST of the caller's data follows the fetch, and the result is `Projected` of the fetched association exactly when the POST succeeds; a failed POST raises its transport error, and an answered POST whose merge fails raises the merge's error |
| Commands.FetchAssociationCmd.constructor | lib/cohesion/commands.rb:24-31 | binds every argument to the field of the same name |
| Commands.FetchAssociationCmd.Run | lib/cohesion/commands.rb:33-35 | performs exactly `FetchSpec` with the bound arguments; the caller's `from` and `to` entity objects end holding their normalised values |
| Commands.FetchAssociationCmd.Execute | lib/cohesion/commands.rb:33-39 | the fetch's value, or nil for any error; the caller's `from` and `to` entity objects end holding their normalised values |
| Commands.FetchAssociationCmd.Fallback | lib/cohesion/commands.rb:37-39 | the fallback is nil, the same value whatever the error |
| Commands.ListAssociationsCmd.constructor | lib/cohesion/commands.rb:45-58 | binds the arguments, with sort replaced by `SortOrDefault` |
| Commands.ListAssociationsCmd.Run | lib/cohesion/commands.rb:60-71 | performs exactly `ListSpec` with the bound arguments; the caller's `from` entity object ends holding its normalised value |
| Commands.ListAssociationsCmd.Execute | lib/cohesion/commands.rb:60-75 | the listing, or `{cursor: '', results: []}` for any error; the caller's `from` entity object ends holding its normalised value |
| Commands.ListAssociationsCmd.Fallback | lib/cohesion/commands.rb:73-75 | the fallback is `{cursor: '', results: []}`, the same value whatever the error |
| Commands.CreateAssociationCmd.constructor | lib/cohesion/commands.rb:81-88 | binds every argument to the field of the same name |
| Commands.CreateAssociationCmd.Run | lib/cohesion/commands.rb:90-92 | performs exactly `CreateSpec` with the bound arguments; the caller's `from` and `to` entity objects end holding their normalised values |
| Commands.CreateAssociationCmd.Execute | lib/cohesion/commands.rb:90-96 | the created association, or nil for any error, including the self-edge ArgumentError; the caller's `from` and `to` entity objects end holding their normalised values |
| Commands.CreateAssociationCmd.Fallback | lib/cohesion/commands.rb:94-96 | the fallback is nil, the same value whatever the error |
| Commands.DeleteAssociationCmd.constructor | lib/cohesion/commands.rb:102-108 | binds every argument to the field of the same name |
| Commands.DeleteAssociationCmd.Run | lib/cohesion/commands.rb:110-112 | performs exactly `DeleteSpec` with the bound arguments; the caller's `from` and `to` entity objects end holding their normalised values |
| Commands.DeleteAssociationCmd.Execute | lib/cohesion/commands.rb:110-116 | true exactly when the delete succeeds; the caller's `from` and `to` entity objects end holding their normalised values |
| Commands.DeleteAssociationCmd.Fallback | lib/cohesion/commands.rb:114-116 | the fallback is false, the same value whatever the error |
| Commands.BulkDeleteAssociationsCmd.constructor | lib/cohesion/commands.rb:124-130 | binds every argument to the field of the same name |
| Commands.BulkDeleteAssociationsCmd.Run | lib/cohesion/commands.rb:132-134 | performs exactly `BulkDeleteSpec` with the bound arguments; the caller's `from` entity object ends holding its normalised value |
| Commands.BulkDeleteAssociationsCmd.Execute | lib/cohesion/commands.rb:132-138 | true exactly when the bulk delete succeeds; the caller's `from` entity object ends holding its normalised value |
| Commands.BulkDeleteAssociationsCmd.Fallback | lib/cohesion/commands.rb:136-138 | the fallback is false, the same value whatever the error |
| Commands.UpdateAssociationsCmd.constructor | lib/cohesion/commands.rb:144-151 | binds every argument to the field of the same name |
| Commands.UpdateAssociationsCmd.Run | lib/cohesion/commands.rb:153-167 | performs exactly `UpdateRunSpec`, although the fetch normalises the entity objects before the update reads them; the caller's `from` and `to` entity objects end holding their normalised values |
| Commands.UpdateAssociationsCmd.Execute | lib/cohesion/commands.rb:153-171 | the updated association, or nil for any error; the caller's `from` and `to` entity objects end holding their normalised values |
| Commands.UpdateAssociationsCmd.Fallback | lib/cohesion/commands.rb:169-171 | the fallback is nil, the same value whatever the error |
| Commands.BatchUpdateAssociationsCmd.constructor | lib/cohesion/commands.rb:177-184 | binds every argument to the field of the same name |
| Commands.BatchUpdateAssociationsCmd.Run | lib/cohesion/commands.rb:191-195 | performs exactly `MultiUpdateSpec` with PATCH; the caller's `from` entity object is untouched when the data is `{}`, and otherwise ends holding its normalised value |
| Commands.BatchUpdateAssociationsCmd.Execute | lib/cohesion/commands.rb:186-195 | true exactly when the batch update succeeds; the caller's `from` entity object is untouched when the data is `{}`, and otherwise ends holding its normalised value |
| Commands.BatchUpdateAssociationsCmd.Fallback | lib/cohesion/commands.rb:186-188 | the fallback is false, the same value whatever the error |
| Commands.BulkUpdateAssociationsCmd.constructor | lib/cohesion/commands.rb:177-184 | binds every argument to the field of the same name |
| Commands.BulkUpdateAssociationsCmd.Run | lib/cohesion/commands.rb:197-201 | performs exactly `MultiUpdateSpec` with POST; the caller's `from` entity object is untouched when the data is `{}`, and otherwise ends holding its normalised value |
| Commands.BulkUpdateAssociationsCmd.Execute | lib/cohesion/commands.rb:186-201 | true exactly when the bulk update succeeds; the caller's `from` entity object is untouched when the data is `{}`, and otherwise ends holding its normalised value |
| Commands.BulkUpdateAssociationsCmd.Fallback | lib/cohesion/commands.rb:186-188 | the fallback is false, the same value whatever the error |
| Commands.CountAssociationsCmd.constructor | lib/cohesion/commands.rb:206-211 | binds every argument to the field of the same name |
| Commands.CountAssociationsCmd.Run | lib/cohesion/commands.rb:213-215 | performs exactly `CountSpec` with the bound arguments; the caller's `from` entity object ends holding its normalised value |
| Commands.CountAssociationsCmd.Execute | lib/cohesion/commands.rb:213-219 | the count, or 0 for any error; the caller's `from` entity object ends holding its normalised value |
| Commands.CountAssociationsCmd.Fallback | lib/cohesion/commands.rb:217-219 | the fallback is 0, the same value whatever the error |

## Left out

- Hystrix's timeout and circuit breaker: `DefaultTimeoutMs`, `BulkDeleteTimeoutMs` and `MinRequests` record the settings from commands.rb:9, 11-13 and 122. A call that times out or meets an open breaker, and so gets the fallback without `Run` finishing, is not modelled, because time and the breaker's shared counters are not part of the model.
- The HTTP connection, headers, JSON encoding of bodies and the `source` header (client.rb:14-34 and the request blocks): the model keeps only verb, path and body.
- Version dispatch in `Client#setup_version` and `lib/cohesion.rb`: the commands hold the `AssociationV1` directly.
- `DateTime`: parsing is the parameter `TimeParser` and `DateTime.now` is the parameter `now`. Nothing about time values is modelled beyond equality.
- URL escaping: none is done by the source, and none is modelled. The URL round-trip lemmas require that values hold no `&`, `/` or `?`, because other values make the URL ambiguous.
- Floats and non-string hash keys in JSON: not represented. Hash key order is not represented either, because a Dafny `map` has none.
- Entities.FromHash: an id or kind that is an array or a hash gives `TypeMismatch`, where Ruby would keep it in the Entity. Entity fields are modelled as scalars only.
- ApiV1.Normalize: a `String` passed as an entity, which `normalize_entity` returns unchanged (associations.rb:16), is not modelled. Arguments are an array or an Entity.
- ApiV1.AssociationV1.Batch: the operations are a sequence of `(operation, association)` pairs. A Ruby hash passed as `operations` is not modelled.
- ApiV1.FetchSpec, ApiV1.ListSpec, ApiV1.ListAddress, ApiV1.AssociationV1.Fetch, ApiV1.AssociationV1.List, Commands.FetchAssociationCmd and Commands.ListAssociationsCmd: `priority` and `cursor` are a string or nil (`Option<string>`). Ruby accepts any value there (associations.rb:118, 137 and 140). The `NoMethodError` that `.empty?` raises on an Integer, and the `to_s` of a non-empty Array or Hash in the path, are not modelled. So the `cursor` that `list` returns, which is JSON, has to be converted to a string before it is passed back, a conversion the Ruby code does not need.
- Commands.ListAssociationsCmd.constructor: `sort` is a string or nil. A non-string with a `size` is not modelled.
- Default arguments: Dafny has none, so each command's constructor takes every argument. `Paths.ListDefaults` states the defaults of `list`.
- `MultiUpdateCmd` is not a class of its own. Its constructor and its `false` fallback are repeated in `BatchUpdateAssociationsCmd` and `BulkUpdateAssociationsCmd`, because the model has no subclassing.
- An association's kind is JSON, as `from_hash` reads it, while the kind in a path is a scalar, as interpolation prints it. In a batch body, a non-scalar kind is not printed into any path.
