# Gelbooru dapi request builder, modelled in Dafny

This project models how a client of the Gelbooru "dapi" search endpoints
turns a search filter into a request URL and rejects an invalid filter
before any request is made. It covers two versions of the client:

- `gel/api.go` is the current client, in module `Gel`. For each search kind
  (posts, tags, users, comments) it checks the filter against one rule.
  It then writes the endpoint prefix, the authentication suffix and only
  those parameters whose field is non-zero or non-empty. It writes them in a
  fixed order. List fields are joined with `+`.
- `api.go` is the older client, in module `Gobooru`. It is modelled exactly
  as written. It writes every parameter unconditionally. It sends tag and
  user searches to the post endpoint. It caps tags at 100, and it does not
  validate the ordering. Its user URL contains a literal `%d`, and its
  authentication suffix has no `=` after `user_id`.

The supporting modules are:

- `Wrappers`: `Option` and `Result`.
- `Decimal`: the `strconv.Itoa` rendering of a natural number, and its read-back.
- `Strings`: `Join` and `Split` on a separator character.
- `Query`: query parameters and their encoding, described below.

In `Query`, a query parameter is a `Param(key, value)`. `Encode` writes a
parameter list as `&key=value…`. `Decode` is the reading model of such a
string that the round-trip lemmas use. It splits at `&` and cuts each part at
its first `=`. An `Entry(key, value)` holds an optional value, and `Fields`
keeps only the entries that hold one. This is the "emit only when set" rule
of the current client.

Each search returns a `Dispatch`. A `Dispatch` is either `Invalid(error)` or
`Request(url)`. The network step `request` is the abstract parameter of
`Query.Perform`. It is consulted only for a `Request`, so an invalid filter
never reaches the network and never yields a partial URL.

Each `Search…` builder is a method that follows the source's steps: a string
accumulator that each write extends, and the source's loops over `Tags` and
`Names`. Each conditional block of the current client (a test, then the key
write and the value write) is one call of a writer method such as
`Gel.WriteNum`, which makes both writes. Each builder method is proved equal
to a declarative query function: `PostQuery`, `TagQuery` or `UserQuery` in
both modules, and `CommentQuery` for `Gobooru.SearchComments`. The current
client builds its comment URL in one expression (gel/api.go:163), so
`Gel.CommentQuery` is a function with no builder method. Each query function
is the prefix, then the client, then `Encode` of the parameter list (for
comments, the one `post_id` parameter). These lemmas are stated about the
query functions and the parameter lists:

- validation holds if and only if the source's check passes;
- absent fields are omitted;
- parameters appear in the source's order;
- each parameter's value can be read back;
- the whole filter round-trips through the URL.

The reading model is lenient with numbers: `Decimal.DecimalToNat` reads a
character that is not a digit as 0, so `%d5` reads back as 5. The numeric
side of each `…RoundTrip` lemma is therefore only as strong as the value
lemmas beside it (`…ParamsValues`, `Gel.UserLimitDecoded`), which pin each
number's value to its canonical decimal numeral.

## Model

| member | source | states |
|---|---|---|
| Decimal.NatToDecimal | gel/api.go:45 | `strconv.Itoa` of a natural: the result is all decimal digits, and it is `"0"` exactly when the number is zero |
| Decimal.DecimalRoundTrip | gel/api.go:45 | reading the decimal rendering back gives the number |
| Strings.Join | gel/api.go:59-66 | the elements joined with single `+`s, as the loops at gel/api.go:59-66 and 99-106 and api.go:157-162 and 188-193 write them; the join begins with the first element, and `SplitJoin` recovers the list |
| Strings.SplitJoin | gel/api.go:59-66 | a non-empty list of `+`-free elements joined with `+` splits back into the same elements in the same order, so no separator comes before the first or after the last |
| Query.Encode | gel/api.go:44-45 | each parameter written as `&key=value`, as each key write and value write pair does; the result is empty exactly for no parameters and otherwise starts with `&`, and `DecodeEncode` reads it back |
| Query.DecodeEncode | gel/api.go:40-66 | a list of parameters whose keys have no `=` or `&` and whose values have no `&` decodes back to itself once written as `&key=value…` |
| Query.Fields | gel/api.go:43-58 | the "write only when set" rule of the chains of guarded blocks at gel/api.go:43-58, 83-110 and 135-150: at most one parameter per field, in field order; `FieldsInOrder`, `FieldsLookup` and `FieldsEmpty` state its order, its values and when it writes nothing |
| Query.FieldsInOrder | gel/api.go:43-66 | the emitted keys are a subsequence of the fixed key order |
| Query.FieldsLookup | gel/api.go:43-66 | with distinct keys, looking up a key in the emitted parameters gives that entry's value, and nothing when the entry was absent |
| Query.FieldsEmpty | gel/api.go:43-66 | nothing is emitted exactly when every field is absent |
| Query.Perform | gel/api.go:68 | the `request` step that ends every search (gel/api.go:68, 120, 152 and 163, and api.go:163-166, 198-201, 222-225 and 240-243): a rejected filter yields its error, and an accepted one yields what `request` returns for the URL; `InvalidIssuesNoRequest` and `RequestIsTheOutcome` are its partners |
| Query.InvalidIssuesNoRequest | gel/api.go:36-38 | a rejected filter yields its error whatever the request step would do, so no request is made |
| Query.RequestIsTheOutcome | gel/api.go:68 | an accepted filter's outcome is the request step applied to the complete URL |
| Gel.NewClient | gel/api.go:24-30 | the suffix is empty exactly when the key or the user is empty |
| Gel.ClientEncoded | gel/api.go:29 | for a non-empty key and user, the suffix is exactly `&api_key=<key>&user_id=<user>`, written as the two parameters `api_key` and `user_id` |
| Gel.ClientParams | gel/api.go:29 | for a non-empty key and user free of `&`, the suffix decodes to `api_key=<key>` followed by `user_id=<user>` |
| Gel.NumValue | gel/api.go:43-46 | a number field's value: absent exactly when the number is 0 (the `> 0` guard), otherwise decimal digits |
| Gel.TextValue | gel/api.go:95-98 | a text field's value: absent exactly when the text is empty (the `len > 0` guard), and it reads back as the text |
| Gel.ListValue | gel/api.go:59-66 | a list field's value: absent exactly when the list is empty (the `range` loop writes nothing), otherwise the `+`-joined elements |
| Gel.PostEntries | gel/api.go:43-66 | the post fields with their values, under the keys pid, limit, cid, id, tags in that order |
| Gel.PostParams | gel/api.go:43-66 | the parameters written for the set fields: their keys are a subsequence of pid, limit, cid, id, tags, so no other key, none twice and none out of order |
| Gel.PostQuery | gel/api.go:35-70 | a post search is rejected exactly when the limit exceeds 100, so a limit of 100 is accepted |
| Gel.SearchPosts | gel/api.go:35-70 | the step-by-step builder, including the loop over tags, yields exactly `PostQuery` |
| Gel.PostAllAbsent | gel/api.go:40-66 | the URL is just prefix plus client exactly when every post field is zero or empty |
| Gel.PostParamsValues | gel/api.go:43-66 | each post key carries its field's decimal, or the `+`-joined tags, and is missing when the field is zero or empty |
| Gel.PostParamsRead | gel/api.go:43-66 | decoding the encoded post parameters gives the filter back |
| Gel.PostRoundTrip | gel/api.go:35-70 | an accepted post filter's URL starts with prefix plus client, and the rest decodes to the filter |
| Gel.ValidOrderBy | gel/api.go:111-117 | the orderings the switch accepts, "", date, count and name; none of them holds `&` |
| Gel.TagEntries | gel/api.go:83-118 | the tag fields with their values, under the keys id, limit, after_id, name, names, name_pattern, orderby in that order |
| Gel.TagParams | gel/api.go:83-118 | the parameters written for the set tag fields: their keys are a subsequence of that order |
| Gel.TagQuery | gel/api.go:72-122 | a tag search is rejected exactly when the limit exceeds 1000 or the ordering is not "", date, count or name |
| Gel.WriteOrderBy | gel/api.go:111-118 | the ordering switch succeeds exactly for a valid ordering, and then writes `&orderby=` only for a non-empty one |
| Gel.SearchTags | gel/api.go:75-122 | the builder, including the loop over names and the bail-out in the ordering switch, yields exactly `TagQuery` |
| Gel.TagAllAbsent | gel/api.go:80-118 | the URL is just prefix plus client exactly when every tag field is zero or empty |
| Gel.TagParamsValues | gel/api.go:83-118 | each tag key carries its field's value, and is missing when the field is zero or empty |
| Gel.TagOrderByLast | gel/api.go:111-115 | `orderby`, when present, is the last parameter |
| Gel.TagParamsRead | gel/api.go:83-118 | decoding the encoded tag parameters gives the filter back |
| Gel.TagRoundTrip | gel/api.go:75-122 | an accepted tag filter's URL starts with the tag prefix plus client, and the rest decodes to the filter |
| Gel.UserEntries | gel/api.go:135-150 | the user fields with their values, under the keys limit, pid, name, name_pattern in that order |
| Gel.UserParams | gel/api.go:135-150 | the parameters written for the set user fields: their keys are a subsequence of that order |
| Gel.UserQuery | gel/api.go:127-154 | a user search is rejected exactly when the limit exceeds 100 |
| Gel.SearchUsers | gel/api.go:127-154 | the builder yields exactly `UserQuery` |
| Gel.UserAllAbsent | gel/api.go:132-150 | the URL is just prefix plus client exactly when every user field is zero or empty |
| Gel.UserParamsValues | gel/api.go:135-150 | each user key carries its field's value, and is missing when the field is zero or empty |
| Gel.UserParamsRead | gel/api.go:135-150 | decoding the encoded user parameters gives the filter back |
| Gel.UserRoundTrip | gel/api.go:127-154 | an accepted user filter's URL starts with the user prefix plus client, and the rest decodes to the filter |
| Gel.UserLimitDecoded | gel/api.go:135-138 | an accepted user URL decodes to its parameters, and its `limit` value is missing for a zero limit and is otherwise exactly the canonical decimal numeral of the limit, with nothing before it |
| Gel.CommentQuery | gel/api.go:158-165 | a comment search is rejected exactly when the post id is 0 |
| Gel.CommentRoundTrip | gel/api.go:158-165 | an accepted URL is the comment prefix plus client followed by exactly the encoded `post_id` parameter, which reads back as the filter |
| Gel.WriteNum | gel/api.go:43-46 | appends `&key=<decimal>` when the number is positive, and nothing otherwise |
| Gel.WriteText | gel/api.go:95-98 | appends `&key=<text>` when the text is non-empty, and nothing otherwise |
| Gel.WriteList | gel/api.go:59-66 | the loop appends `&key=` and the `+`-joined list when the list is non-empty, and nothing otherwise |
| Gel.NumValueOf | gel/api.go:43-46 | the emitted numeric value reads back as the number and holds no `&` |
| Gel.ListValueOf | gel/api.go:59-66 | for elements free of `&` and `+`, the emitted list value reads back as the list and holds no `&` |
| Gobooru.NewClient | api.go:131-136 | the suffix is empty exactly when the key or the user is empty |
| Gobooru.ClientSplit | api.go:135 | for a non-empty key and user, both free of `&`, the suffix splits at `&` into exactly "", `api_key=<key>` and `user_id<user>` (a key such as `a&b` gives more parts) |
| Gobooru.ClientParts | api.go:135 | for a non-empty key and user free of `&`, and a user free of `=`, the suffix decodes to `api_key=<key>` and a parameter named `user_id<user>` with an empty value (a user beginning with `=` would instead decode as a `user_id` parameter) |
| Gobooru.ClientLosesUserId | api.go:135 | for a non-empty key and user free of `&`, and a user free of `=`, the decoded suffix has no `user_id` parameter at all (a user beginning with `=` would supply the missing `=`) |
| Gobooru.PostQuery | api.go:140-167 | a post search is rejected exactly when the limit exceeds 100 |
| Gobooru.SearchPosts | api.go:140-167 | the step-by-step builder, including its tag loop, yields exactly `PostQuery` |
| Gobooru.WriteList | api.go:156-162 | the loop writes `&key=` and then the elements joined by `+`, with nothing before the first or after the last |
| Gobooru.Write | api.go:148-149 | appends `&key=value` |
| Gobooru.PostParams | api.go:148-162 | every post parameter, written whatever its value, under exactly the keys pid, limit, cid, id, tags in that order |
| Gobooru.ZeroPostParams | api.go:148-162 | the zero filter writes `"0"` for each number and a bare `tags=` |
| Gobooru.EmptyTagsCollide | api.go:156-162 | an empty tag list and a list holding one empty tag give the same URL |
| Gobooru.PostParamsValues | api.go:146-162 | each post key carries its field's decimal, or the `+`-joined tags |
| Gobooru.PostParamsRead | api.go:146-162 | for a non-empty tag list, decoding the post parameters gives the filter back |
| Gobooru.PostRoundTrip | api.go:140-167 | an accepted post URL with a non-empty tag list starts with the post endpoint plus client, and its rest decodes to the filter |
| Gobooru.TagQuery | api.go:171-202 | a tag search is rejected exactly when the limit exceeds 100, and the ordering is never checked |
| Gobooru.SearchTags | api.go:171-202 | the builder yields exactly `TagQuery` |
| Gobooru.TagParams | api.go:179-197 | every tag parameter, written whatever its value, under exactly the keys id, limit, after_id, name, names, name_pattern, orderby in that order |
| Gobooru.TagParamsValues | api.go:179-197 | each tag key carries its field's value verbatim, including any ordering |
| Gobooru.TagParamsRead | api.go:179-197 | for a non-empty name list, decoding the tag parameters gives the filter back, whatever the ordering is |
| Gobooru.TagRoundTrip | api.go:171-202 | an accepted tag URL with a non-empty name list starts with the post endpoint plus client, and its rest decodes to the filter, whatever the ordering is |
| Gobooru.TagsHitPostEndpoint | api.go:177 | an accepted tag search's URL starts with the post endpoint, not the tag endpoint |
| Gobooru.UserQuery | api.go:206-226 | a user search is rejected exactly when the limit exceeds 100 |
| Gobooru.SearchUsers | api.go:206-226 | the builder yields exactly `UserQuery` |
| Gobooru.UserParams | api.go:214-221 | every user parameter, written whatever its value, under exactly the keys limit, pid, name, name_pattern in that order; the limit's value is the literal `%d` followed by the decimal |
| Gobooru.UserLimitGarbled | api.go:214-215 | the user URL decodes to its parameters, and the limit value is `%d` followed by the decimal, which is not a decimal number |
| Gobooru.UsersHitPostEndpoint | api.go:212 | an accepted user search's URL starts with the post endpoint, not the user endpoint |
| Gobooru.CommentQuery | api.go:230-244 | a comment search is rejected exactly when the post id is 0 |
| Gobooru.SearchComments | api.go:230-244 | the builder yields exactly `CommentQuery` |
| Gobooru.CommentRoundTrip | api.go:236-239 | an accepted comment URL starts with the comment endpoint plus client, and its rest decodes to the filter |

## Left out

- The network step: `request` in both clients is HTTP GET, `io.ReadAll` and
  `xml.Unmarshal`, and so is `Request` in common.go. These are I/O and
  library decoders. They are the function parameter of `Query.Perform`.
- The response structs (`postSearchResult` and the others) are field lists for
  a library decoder. They have no behaviour to model.
- The e621 client, the command-line tool and the live network tests are not
  part of this model. They hold no query logic.
- Numeric filter fields are naturals. The `int(uint)` conversion inside
  `strconv.Itoa` is not modelled, so overflow on huge values is out of scope.
- The declaration of the current client's `Client` type is not part of this
  model. It is taken to be a string, as `string(c)` in gel/api.go:42 implies.
- Error values are modelled as their messages.
- `strings.Builder` is modelled as a string accumulator that each write
  extends.
- The clients write text verbatim, with no percent-encoding, and so does the
  model. The round-trip lemmas therefore require text fields free of `&`,
  and list elements free of `+` as well.
- `Decode` is the model's reading of a query string. It is not code of the
  repository, and the server's own parser is not visible.
- Filter records: the old client's records (api.go:17-44) have the same
  fields as the current ones (gel/bindings.go:3-30). Both modules use the
  `Gel` datatypes.
- Gobooru.PostParamsRead: stated only for non-empty tag lists. The old
  client writes a bare `&tags=` for an empty list, which reads back as
  `[""]`; Gobooru.EmptyTagsCollide shows that this case cannot round-trip.
- Gobooru.TagParamsRead: stated only for non-empty name lists, for the same
  reason.
- Gobooru.PostRoundTrip: stated only for non-empty tag lists, for the same
  reason.
- Gobooru.TagRoundTrip: stated only for non-empty name lists, for the same
  reason.

## Findings

| source | as written | input that shows it | evidently intended | confidence | as-written member | corrected member |
|---|---|---|---|---|---|---|
| api.go:135 | the suffix is `&api_key=<key>&user_id<user>`, with no `=` after `user_id` | key `k`, user `u` gives `&api_key=k&user_idu`, which has no `user_id` parameter; this holds for every user without `=` (a user such as `=5` happens to supply the missing `=`) | `&user_id=<user>`, as gel/api.go:29 writes it | high; not executed | Gobooru.ClientLosesUserId | Gel.ClientParams |
| api.go:214 | the user limit is written as `&limit=%d` followed by the decimal | limit 5 gives `&limit=%d5` | `&limit=5` | high; not executed | Gobooru.UserLimitGarbled | Gel.UserLimitDecoded |
| api.go:177 | a tag search starts with the post endpoint | any accepted tag filter gives a URL on `s=post` | the tag endpoint `baseTagsSearchUrl` of api.go:123, which is otherwise unused | high; not executed | Gobooru.TagsHitPostEndpoint | Gel.TagRoundTrip |
| api.go:212 | a user search starts with the post endpoint | any accepted user filter gives a URL on `s=post` | the user endpoint `baseUserSearchUrl` of api.go:124, which is otherwise unused | high; not executed | Gobooru.UsersHitPostEndpoint | Gel.UserRoundTrip |
