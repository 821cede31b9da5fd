/** The current client, package `gel`: request URLs for the Gelbooru "dapi" post, tag, user and
    comment searches, validated first, each parameter written only when its field is set. */
module Gel {
  import opened Wrappers
  import opened Decimal
  import opened Strings
  import opened Query

  const PostSearchPrefix := "https://gelbooru.com/index.php?page=dapi&q=index&s=post"
  const TagSearchPrefix := "https://gelbooru.com/index.php?page=dapi&q=index&s=tag"
  const UserSearchPrefix := "https://gelbooru.com/index.php?page=dapi&q=index&s=user"
  const CommentSearchPrefix := "https://gelbooru.com/index.php?page=dapi&q=index&s=comment"

  /** The authentication suffix every URL carries right after its prefix ("" when unauthenticated). */
  type Client = string

  // Filters; a zero number, an empty string or an empty list means "absent".
  datatype PostFilter = PostFilter(postID: nat, postLimit: nat, pageNum: nat, tags: seq<string>, changeID: nat)
  datatype TagFilter = TagFilter(tagID: nat, tagLimit: nat, afterID: nat, name: string,
                                 names: seq<string>, namePattern: string, orderBy: string)
  datatype UserFilter = UserFilter(userLimit: nat, pageNum: nat, userName: string, namePattern: string)
  datatype CommentFilter = CommentFilter(postID: nat)

  const PostOrder := ["pid", "limit", "cid", "id", "tags"]
  const TagOrder := ["id", "limit", "after_id", "name", "names", "name_pattern", "orderby"]
  const UserOrder := ["limit", "pid", "name", "name_pattern"]

  /** Builds the authentication suffix: nothing unless both the key and the user are given. */
  function NewClient(key: string, user: string): (c: Client)
    ensures c == "" <==> key == "" || user == ""
  {
    if |key| == 0 || |user| == 0 then "" else "&api_key=" + key + "&user_id=" + user
  }

  // The value a field gives its parameter: none when the field is absent.

  /** A number field: absent when 0, else its decimal digits. */
  function NumValue(n: nat): (v: Option<string>)
    ensures v.None? <==> n == 0
    ensures v.Some? ==> IsDecimal(v.value)
  {
    if n > 0 then Some(NatToDecimal(n)) else None
  }

  /** A text field: absent when empty, and read back as itself. */
  function TextValue(s: string): (v: Option<string>)
    ensures v.None? <==> s == ""
    ensures TextOf(v) == s
  {
    if |s| > 0 then Some(s) else None
  }

  /** A list field: absent when empty, else its elements joined with `+`, in the caller's order. */
  function ListValue(xs: seq<string>): (v: Option<string>)
    ensures v.None? <==> xs == []
  {
    if |xs| > 0 then Some(Join(xs, '+')) else None
  }

  function PostEntries(f: PostFilter): (es: seq<Entry>)
    ensures EntryKeys(es) == PostOrder
  {
    [Entry("pid", NumValue(f.pageNum)), Entry("limit", NumValue(f.postLimit)), Entry("cid", NumValue(f.changeID)),
     Entry("id", NumValue(f.postID)), Entry("tags", ListValue(f.tags))]
  }

  function TagEntries(f: TagFilter): (es: seq<Entry>)
    ensures EntryKeys(es) == TagOrder
  {
    [Entry("id", NumValue(f.tagID)), Entry("limit", NumValue(f.tagLimit)), Entry("after_id", NumValue(f.afterID)),
     Entry("name", TextValue(f.name)), Entry("names", ListValue(f.names)),
     Entry("name_pattern", TextValue(f.namePattern)), Entry("orderby", TextValue(f.orderBy))]
  }

  function UserEntries(f: UserFilter): (es: seq<Entry>)
    ensures EntryKeys(es) == UserOrder
  {
    [Entry("limit", NumValue(f.userLimit)), Entry("pid", NumValue(f.pageNum)), Entry("name", TextValue(f.userName)),
     Entry("name_pattern", TextValue(f.namePattern))]
  }

  // The parameters a valid filter writes: the keys written follow the source's order, with no other
  // key, none twice and none out of order.

  function PostParams(f: PostFilter): (ps: seq<Param>)
    ensures Subsequence(Keys(ps), PostOrder)
  {
    FieldsInOrder(PostEntries(f));
    Fields(PostEntries(f))
  }

  function TagParams(f: TagFilter): (ps: seq<Param>)
    ensures Subsequence(Keys(ps), TagOrder)
  {
    FieldsInOrder(TagEntries(f));
    Fields(TagEntries(f))
  }

  function UserParams(f: UserFilter): (ps: seq<Param>)
    ensures Subsequence(Keys(ps), UserOrder)
  {
    FieldsInOrder(UserEntries(f));
    Fields(UserEntries(f))
  }

  /** The orderings the tag search accepts; none of them holds `&`, so each is written intact. */
  function ValidOrderBy(s: string): (ok: bool)
    ensures ok ==> '&' !in s
  {
    s == "" || s == "date" || s == "count" || s == "name"
  }

  /** What SearchPosts does: refuse a limit over 100, else request the post URL. */
  function PostQuery(c: Client, f: PostFilter): (d: Dispatch)
    ensures d.Invalid? <==> f.postLimit > 100
  {
    if f.postLimit > 100 then Invalid("PostLimit can not be greater than 100")
    else Request(PostSearchPrefix + c + Encode(PostParams(f)))
  }

  /** What SearchTags does: refuse a limit over 1000 (a looser cap than the service documents), then an
      ordering other than date, count or name, else request the tag URL. */
  function TagQuery(c: Client, f: TagFilter): (d: Dispatch)
    ensures d.Invalid? <==> f.tagLimit > 1000 || !ValidOrderBy(f.orderBy)
  {
    if f.tagLimit > 1000 then Invalid("TagLimit can not be greater than 1000")
    else if !ValidOrderBy(f.orderBy) then Invalid("invalid OrderBy " + f.orderBy)
    else Request(TagSearchPrefix + c + Encode(TagParams(f)))
  }

  /** What SearchUsers does: refuse a limit over 100, else request the user URL. */
  function UserQuery(c: Client, f: UserFilter): (d: Dispatch)
    ensures d.Invalid? <==> f.userLimit > 100
  {
    if f.userLimit > 100 then Invalid("UserLimit can not be greater than 100")
    else Request(UserSearchPrefix + c + Encode(UserParams(f)))
  }

  /** SearchComments up to the call of `request`: refuse post 0, else request the comments of that post. */
  function CommentQuery(c: Client, f: CommentFilter): (d: Dispatch)
    ensures d.Invalid? <==> f.postID == 0
  {
    if f.postID == 0 then Invalid("invalid PostID 0")
    else Request(CommentSearchPrefix + c + "&post_id=" + NatToDecimal(f.postID))
  }

  // The writes to the URL accumulator: one conditional block of the source each.

  /** `if n > 0 { write "&key=" and the decimal of n }`. */
  method WriteNum(url: string, key: string, n: nat) returns (r: string)
    ensures r == url + Encode(Field(Entry(key, NumValue(n))))
  {
    r := url;
    if n > 0 {
      EncodeSingle(Param(key, NatToDecimal(n)));
      r := r + "&" + key + "=" + NatToDecimal(n);
    }
  }

  /** `if len(s) > 0 { write "&key=" and s }`. */
  method WriteText(url: string, key: string, s: string) returns (r: string)
    ensures r == url + Encode(Field(Entry(key, TextValue(s))))
  {
    r := url;
    if |s| > 0 {
      EncodeSingle(Param(key, s));
      r := r + "&" + key + "=" + s;
    }
  }

  /** The range loop over a list field: "&key=" before element 0, a `+` before every later one. */
  method WriteList(url: string, key: string, xs: seq<string>) returns (r: string)
    ensures r == url + Encode(Field(Entry(key, ListValue(xs))))
  {
    r := url;
    for i := 0 to |xs|
      invariant r == url + Encode(Field(Entry(key, ListValue(xs[..i]))))
    {
      JoinStep(xs, i, '+');
      EncodeSingle(Param(key, Join(xs[..i + 1], '+')));
      if i > 0 {
        EncodeSingle(Param(key, Join(xs[..i], '+')));
        r := r + "+";
      } else {
        r := r + "&" + key + "=";
      }
      r := r + xs[i];
    }
    assert xs[..|xs|] == xs;
  }

  /** The switch on the ordering: nothing for "", the parameter for date, count or name, and a refusal
      (`ok` false) for anything else. */
  method WriteOrderBy(url: string, s: string) returns (r: string, ok: bool)
    ensures ok <==> ValidOrderBy(s)
    ensures ok ==> r == url + Encode(Field(Entry("orderby", TextValue(s))))
  {
    r, ok := url, true;
    if s == "" {
      assert Encode(Field(Entry("orderby", TextValue(s)))) == [];
    } else if s == "date" || s == "count" || s == "name" {
      r := WriteText(url, "orderby", s);
    } else {
      ok := false;
    }
  }

  /** SearchPosts up to the call of `request`. */
  method SearchPosts(c: Client, f: PostFilter) returns (d: Dispatch)
    ensures d == PostQuery(c, f)
  {
    if f.postLimit > 100 {
      return Invalid("PostLimit can not be greater than 100");
    }
    var url := PostSearchPrefix + c;
    url := WriteNum(url, "pid", f.pageNum);
    url := WriteNum(url, "limit", f.postLimit);
    url := WriteNum(url, "cid", f.changeID);
    url := WriteNum(url, "id", f.postID);
    url := WriteList(url, "tags", f.tags);
    PostWrites(PostSearchPrefix + c, f);
    return Request(url);
  }

  /** SearchTags up to the call of `request`; an unknown ordering is refused after the other
      parameters were written, and the partial URL is dropped. */
  method SearchTags(c: Client, f: TagFilter) returns (d: Dispatch)
    ensures d == TagQuery(c, f)
  {
    if f.tagLimit > 1000 {
      return Invalid("TagLimit can not be greater than 1000");
    }
    var url := TagSearchPrefix + c;
    url := WriteNum(url, "id", f.tagID);
    url := WriteNum(url, "limit", f.tagLimit);
    url := WriteNum(url, "after_id", f.afterID);
    url := WriteText(url, "name", f.name);
    url := WriteList(url, "names", f.names);
    url := WriteText(url, "name_pattern", f.namePattern);
    var ok;
    url, ok := WriteOrderBy(url, f.orderBy);
    if !ok {
      return Invalid("invalid OrderBy " + f.orderBy);
    }
    TagWrites(TagSearchPrefix + c, f);
    return Request(url);
  }

  /** SearchUsers up to the call of `request`. */
  method SearchUsers(c: Client, f: UserFilter) returns (d: Dispatch)
    ensures d == UserQuery(c, f)
  {
    if f.userLimit > 100 {
      return Invalid("UserLimit can not be greater than 100");
    }
    var url := UserSearchPrefix + c;
    url := WriteNum(url, "limit", f.userLimit);
    url := WriteNum(url, "pid", f.pageNum);
    url := WriteText(url, "name", f.userName);
    url := WriteText(url, "name_pattern", f.namePattern);
    UserWrites(UserSearchPrefix + c, f);
    return Request(url);
  }

  // Encoding an entry list is writing its fields one after the other.

  lemma PostWrites(base: string, f: PostFilter)
    ensures base + Encode(Fields(PostEntries(f))) ==
      base + Encode(Field(PostEntries(f)[0]))
      + Encode(Field(PostEntries(f)[1]))
      + Encode(Field(PostEntries(f)[2]))
      + Encode(Field(PostEntries(f)[3]))
      + Encode(Field(PostEntries(f)[4]))
  {
    var es := PostEntries(f);
    assert es == [es[0]] + [es[1]] + [es[2]] + [es[3]] + [es[4]];
    assert Fields([es[0]]) == Field(es[0]) by { FieldsSnoc([], es[0]); assert [] + [es[0]] == [es[0]]; }
    FieldsSnoc([es[0]], es[1]);
    FieldsSnoc([es[0]] + [es[1]], es[2]);
    FieldsSnoc([es[0]] + [es[1]] + [es[2]], es[3]);
    FieldsSnoc([es[0]] + [es[1]] + [es[2]] + [es[3]], es[4]);
    var a, b, c, d, e := Field(es[0]), Field(es[1]), Field(es[2]), Field(es[3]), Field(es[4]);
    EncodeAfter(base, a + b + c + d, e);
    EncodeAfter(base, a + b + c, d);
    EncodeAfter(base, a + b, c);
    EncodeAfter(base, a, b);
  }

  lemma TagWrites(base: string, f: TagFilter)
    ensures base + Encode(Fields(TagEntries(f))) ==
      base + Encode(Field(TagEntries(f)[0]))
      + Encode(Field(TagEntries(f)[1]))
      + Encode(Field(TagEntries(f)[2]))
      + Encode(Field(TagEntries(f)[3]))
      + Encode(Field(TagEntries(f)[4]))
      + Encode(Field(TagEntries(f)[5]))
      + Encode(Field(TagEntries(f)[6]))
  {
    var es := TagEntries(f);
    assert es == [es[0]] + [es[1]] + [es[2]] + [es[3]] + [es[4]] + [es[5]] + [es[6]];
    assert Fields([es[0]]) == Field(es[0]) by { FieldsSnoc([], es[0]); assert [] + [es[0]] == [es[0]]; }
    FieldsSnoc([es[0]], es[1]);
    FieldsSnoc([es[0]] + [es[1]], es[2]);
    FieldsSnoc([es[0]] + [es[1]] + [es[2]], es[3]);
    FieldsSnoc([es[0]] + [es[1]] + [es[2]] + [es[3]], es[4]);
    FieldsSnoc([es[0]] + [es[1]] + [es[2]] + [es[3]] + [es[4]], es[5]);
    FieldsSnoc([es[0]] + [es[1]] + [es[2]] + [es[3]] + [es[4]] + [es[5]], es[6]);
    var a, b, c, d, e, g, h := Field(es[0]), Field(es[1]), Field(es[2]), Field(es[3]), Field(es[4]), Field(es[5]), Field(es[6]);
    EncodeAfter(base, a + b + c + d + e + g, h);
    EncodeAfter(base, a + b + c + d + e, g);
    EncodeAfter(base, a + b + c + d, e);
    EncodeAfter(base, a + b + c, d);
    EncodeAfter(base, a + b, c);
    EncodeAfter(base, a, b);
  }

  lemma UserWrites(base: string, f: UserFilter)
    ensures base + Encode(Fields(UserEntries(f))) ==
      base + Encode(Field(UserEntries(f)[0]))
      + Encode(Field(UserEntries(f)[1]))
      + Encode(Field(UserEntries(f)[2]))
      + Encode(Field(UserEntries(f)[3]))
  {
    var es := UserEntries(f);
    assert es == [es[0]] + [es[1]] + [es[2]] + [es[3]];
    assert Fields([es[0]]) == Field(es[0]) by { FieldsSnoc([], es[0]); assert [] + [es[0]] == [es[0]]; }
    FieldsSnoc([es[0]], es[1]);
    FieldsSnoc([es[0]] + [es[1]], es[2]);
    FieldsSnoc([es[0]] + [es[1]] + [es[2]], es[3]);
    var a, b, c, d := Field(es[0]), Field(es[1]), Field(es[2]), Field(es[3]);
    EncodeAfter(base, a + b + c, d);
    EncodeAfter(base, a + b, c);
    EncodeAfter(base, a, b);
  }

  // Reading a URL's parameters back into a filter (absent reads as zero or empty).

  function PostFilterOf(ps: seq<Param>): PostFilter {
    PostFilter(NumOf(Lookup(ps, "id")), NumOf(Lookup(ps, "limit")), NumOf(Lookup(ps, "pid")),
               ListOf(Lookup(ps, "tags")), NumOf(Lookup(ps, "cid")))
  }

  /** List elements that survive being written: no `&` and no `+` inside. */
  predicate PlainList(xs: seq<string>) {
    forall i :: 0 <= i < |xs| ==> '&' !in xs[i] && '+' !in xs[i]
  }

  lemma NumValueOf(n: nat)
    ensures NumOf(NumValue(n)) == n
    ensures PlainValue(NumValue(n))
  {
    if n > 0 {
      DecimalRoundTrip(n);
      assert !IsDigit('&');
    }
  }

  lemma ListValueOf(xs: seq<string>)
    requires PlainList(xs)
    ensures ListOf(ListValue(xs)) == xs
    ensures PlainValue(ListValue(xs))
  {
    if |xs| > 0 {
      SplitJoin(xs, '+');
      JoinAvoids(xs, '+', '&');
    }
  }

  /** The client suffix is itself two parameters, read back as the key and the user. */
  lemma ClientParams(key: string, user: string)
    requires key != "" && user != "" && '&' !in key && '&' !in user
    ensures Decode(NewClient(key, user)) == [Param("api_key", key), Param("user_id", user)]
  {
    var ps := [Param("api_key", key), Param("user_id", user)];
    ClientEncoded(key, user);
    assert AllWellformed(ps) by {
      assert '=' !in "api_key" && '&' !in "api_key" && '=' !in "user_id" && '&' !in "user_id";
    }
    DecodeEncode(ps);
  }

  /** An authenticated client's suffix is exactly the two parameters `api_key` and `user_id`, written
      as a query string, whatever the key and the user hold. */
  lemma ClientEncoded(key: string, user: string)
    requires key != "" && user != ""
    ensures NewClient(key, user) == Encode([Param("api_key", key), Param("user_id", user)])
  {
    var ps := [Param("api_key", key), Param("user_id", user)];
    EncodeSingle(ps[0]);
    EncodeSingle(ps[1]);
    EncodeConcat([ps[0]], [ps[1]]);
    assert ps == [ps[0]] + [ps[1]];
    assert "&" + "api_key" + "=" == "&api_key=";
    assert "&" + "user_id" + "=" == "&user_id=";
    assert Encode(ps) == "&api_key=" + key + ("&user_id=" + user);
    AppendAssoc("&api_key=" + key, "&user_id=", user);
  }

  /** A post filter with every field absent requests the bare prefix and client, and only it does. */
  lemma PostAllAbsent(c: Client, f: PostFilter)
    ensures PostQuery(c, f) == Request(PostSearchPrefix + c) <==> f == PostFilter(0, 0, 0, [], 0)
  {
    var es := PostEntries(f);
    FieldsEmpty(es);
    if f == PostFilter(0, 0, 0, [], 0) {
      assert forall i :: 0 <= i < |es| ==> es[i].value.None?;
    }
    if PostQuery(c, f) == Request(PostSearchPrefix + c) {
      assert |PostSearchPrefix + c + Encode(PostParams(f))| == |PostSearchPrefix + c|;
      assert es[0].value.None? && es[1].value.None? && es[2].value.None? && es[3].value.None? && es[4].value.None?;
      NumValueOf(f.pageNum);
      NumValueOf(f.postLimit);
      NumValueOf(f.changeID);
      NumValueOf(f.postID);
    }
  }

  /** No key of any search contains `=` or `&`. */
  lemma OrdersPlain()
    ensures PlainKeys(PostOrder) && PlainKeys(TagOrder) && PlainKeys(UserOrder)
  {
  }

  /** Each field is written exactly when it is set, with its decimal or `+`-joined value. */
  lemma PostParamsValues(f: PostFilter)
    ensures Lookup(PostParams(f), "pid") == NumValue(f.pageNum)
    ensures Lookup(PostParams(f), "limit") == NumValue(f.postLimit)
    ensures Lookup(PostParams(f), "cid") == NumValue(f.changeID)
    ensures Lookup(PostParams(f), "id") == NumValue(f.postID)
    ensures Lookup(PostParams(f), "tags") == ListValue(f.tags)
  {
    var es := PostEntries(f);
    assert DistinctKeys(es);
    FieldsLookup(es, 0);
    FieldsLookup(es, 1);
    FieldsLookup(es, 2);
    FieldsLookup(es, 3);
    FieldsLookup(es, 4);
  }

  lemma PostEntriesPlain(f: PostFilter)
    requires PlainList(f.tags)
    ensures PlainEntries(PostEntries(f))
  {
    NumValueOf(f.pageNum);
    NumValueOf(f.postLimit);
    NumValueOf(f.changeID);
    NumValueOf(f.postID);
    ListValueOf(f.tags);
    OrdersPlain();
  }

  /** The parameters of a filter with plain tags read back as that filter. */
  lemma PostParamsRead(f: PostFilter)
    requires PlainList(f.tags)
    ensures PostFilterOf(Decode(Encode(PostParams(f)))) == f
  {
    var es := PostEntries(f);
    NumValueOf(f.pageNum);
    NumValueOf(f.postLimit);
    NumValueOf(f.changeID);
    NumValueOf(f.postID);
    ListValueOf(f.tags);
    PostEntriesPlain(f);
    FieldsWellformed(es);
    DecodeEncode(PostParams(f));
    PostParamsValues(f);
  }

  /** A requested post URL is the prefix and the client followed by parameters that read back as the filter. */
  lemma PostRoundTrip(c: Client, f: PostFilter)
    requires f.postLimit <= 100 && PlainList(f.tags)
    ensures PostQuery(c, f).Request?
    ensures PostQuery(c, f).url[..|PostSearchPrefix + c|] == PostSearchPrefix + c
    ensures PostFilterOf(Decode(PostQuery(c, f).url[|PostSearchPrefix + c|..])) == f
  {
    PostParamsRead(f);
    assert PostQuery(c, f).url[|PostSearchPrefix + c|..] == Encode(PostParams(f));
  }

  function TagFilterOf(ps: seq<Param>): TagFilter {
    TagFilter(NumOf(Lookup(ps, "id")), NumOf(Lookup(ps, "limit")), NumOf(Lookup(ps, "after_id")),
              TextOf(Lookup(ps, "name")), ListOf(Lookup(ps, "names")), TextOf(Lookup(ps, "name_pattern")),
              TextOf(Lookup(ps, "orderby")))
  }

  function UserFilterOf(ps: seq<Param>): UserFilter {
    UserFilter(NumOf(Lookup(ps, "limit")), NumOf(Lookup(ps, "pid")), TextOf(Lookup(ps, "name")),
               TextOf(Lookup(ps, "name_pattern")))
  }

  function CommentFilterOf(ps: seq<Param>): CommentFilter {
    CommentFilter(NumOf(Lookup(ps, "post_id")))
  }

  /** A tag filter with every field absent requests the bare prefix and client, and only it does. */
  lemma TagAllAbsent(c: Client, f: TagFilter)
    ensures TagQuery(c, f) == Request(TagSearchPrefix + c) <==> f == TagFilter(0, 0, 0, "", [], "", "")
  {
    var es := TagEntries(f);
    FieldsEmpty(es);
    if f == TagFilter(0, 0, 0, "", [], "", "") {
      assert forall i :: 0 <= i < |es| ==> es[i].value.None?;
    }
    if TagQuery(c, f) == Request(TagSearchPrefix + c) {
      assert |TagSearchPrefix + c + Encode(TagParams(f))| == |TagSearchPrefix + c|;
      assert es[0].value.None? && es[1].value.None? && es[2].value.None? && es[3].value.None?;
      assert es[4].value.None? && es[5].value.None? && es[6].value.None?;
      NumValueOf(f.tagID);
      NumValueOf(f.tagLimit);
      NumValueOf(f.afterID);
    }
  }

  /** A user filter with every field absent requests the bare prefix and client, and only it does. */
  lemma UserAllAbsent(c: Client, f: UserFilter)
    ensures UserQuery(c, f) == Request(UserSearchPrefix + c) <==> f == UserFilter(0, 0, "", "")
  {
    var es := UserEntries(f);
    FieldsEmpty(es);
    if f == UserFilter(0, 0, "", "") {
      assert forall i :: 0 <= i < |es| ==> es[i].value.None?;
    }
    if UserQuery(c, f) == Request(UserSearchPrefix + c) {
      assert |UserSearchPrefix + c + Encode(UserParams(f))| == |UserSearchPrefix + c|;
      assert es[0].value.None? && es[1].value.None? && es[2].value.None? && es[3].value.None?;
      NumValueOf(f.userLimit);
      NumValueOf(f.pageNum);
    }
  }

  /** Each tag field is written exactly when it is set, with its value. */
  lemma TagParamsValues(f: TagFilter)
    ensures Lookup(TagParams(f), "id") == NumValue(f.tagID)
    ensures Lookup(TagParams(f), "limit") == NumValue(f.tagLimit)
    ensures Lookup(TagParams(f), "after_id") == NumValue(f.afterID)
    ensures Lookup(TagParams(f), "name") == TextValue(f.name)
    ensures Lookup(TagParams(f), "names") == ListValue(f.names)
    ensures Lookup(TagParams(f), "name_pattern") == TextValue(f.namePattern)
    ensures Lookup(TagParams(f), "orderby") == TextValue(f.orderBy)
  {
    var es := TagEntries(f);
    assert DistinctKeys(es);
    FieldsLookup(es, 0);
    FieldsLookup(es, 1);
    FieldsLookup(es, 2);
    FieldsLookup(es, 3);
    FieldsLookup(es, 4);
    FieldsLookup(es, 5);
    FieldsLookup(es, 6);
  }

  /** Each user field is written exactly when it is set, with its value. */
  lemma UserParamsValues(f: UserFilter)
    ensures Lookup(UserParams(f), "limit") == NumValue(f.userLimit)
    ensures Lookup(UserParams(f), "pid") == NumValue(f.pageNum)
    ensures Lookup(UserParams(f), "name") == TextValue(f.userName)
    ensures Lookup(UserParams(f), "name_pattern") == TextValue(f.namePattern)
  {
    var es := UserEntries(f);
    assert DistinctKeys(es);
    FieldsLookup(es, 0);
    FieldsLookup(es, 1);
    FieldsLookup(es, 2);
    FieldsLookup(es, 3);
  }

  /** A set ordering is the last parameter written; an empty one writes none. */
  lemma TagOrderByLast(f: TagFilter)
    ensures f.orderBy != "" ==> TagParams(f) == Fields(TagEntries(f)[..6]) + [Param("orderby", f.orderBy)]
    ensures f.orderBy == "" ==> TagParams(f) == Fields(TagEntries(f)[..6])
  {
  }

  /** The parameters of a tag filter with plain strings read back as that filter. */
  lemma TagParamsRead(f: TagFilter)
    requires PlainList(f.names) && '&' !in f.name && '&' !in f.namePattern && '&' !in f.orderBy
    ensures TagFilterOf(Decode(Encode(TagParams(f)))) == f
  {
    var es := TagEntries(f);
    NumValueOf(f.tagID);
    NumValueOf(f.tagLimit);
    NumValueOf(f.afterID);
    ListValueOf(f.names);
    OrdersPlain();
    FieldsWellformed(es);
    DecodeEncode(TagParams(f));
    TagParamsValues(f);
  }

  /** The parameters of a user filter with plain strings read back as that filter. */
  lemma UserParamsRead(f: UserFilter)
    requires '&' !in f.userName && '&' !in f.namePattern
    ensures UserFilterOf(Decode(Encode(UserParams(f)))) == f
  {
    var es := UserEntries(f);
    NumValueOf(f.userLimit);
    NumValueOf(f.pageNum);
    OrdersPlain();
    FieldsWellformed(es);
    DecodeEncode(UserParams(f));
    UserParamsValues(f);
  }

  /** A requested tag URL is the prefix and the client followed by parameters that read back as the filter. */
  lemma TagRoundTrip(c: Client, f: TagFilter)
    requires f.tagLimit <= 1000 && ValidOrderBy(f.orderBy)
    requires PlainList(f.names) && '&' !in f.name && '&' !in f.namePattern
    ensures TagQuery(c, f).Request?
    ensures TagQuery(c, f).url[..|TagSearchPrefix + c|] == TagSearchPrefix + c
    ensures TagFilterOf(Decode(TagQuery(c, f).url[|TagSearchPrefix + c|..])) == f
  {
    TagParamsRead(f);
    assert TagQuery(c, f).url[|TagSearchPrefix + c|..] == Encode(TagParams(f));
  }

  /** A requested user URL is the prefix and the client followed by parameters that read back as the filter. */
  lemma UserRoundTrip(c: Client, f: UserFilter)
    requires f.userLimit <= 100 && '&' !in f.userName && '&' !in f.namePattern
    ensures UserQuery(c, f).Request?
    ensures UserQuery(c, f).url[..|UserSearchPrefix + c|] == UserSearchPrefix + c
    ensures UserFilterOf(Decode(UserQuery(c, f).url[|UserSearchPrefix + c|..])) == f
  {
    UserParamsRead(f);
    assert UserQuery(c, f).url[|UserSearchPrefix + c|..] == Encode(UserParams(f));
  }

  /** The limit a requested user URL carries is the decimal numeral of the filter's limit, and it is written only when set. */
  lemma UserLimitDecoded(c: Client, f: UserFilter)
    requires f.userLimit <= 100 && '&' !in f.userName && '&' !in f.namePattern
    ensures UserQuery(c, f).Request?
    ensures Decode(UserQuery(c, f).url[|UserSearchPrefix + c|..]) == UserParams(f)
    ensures f.userLimit == 0 ==> Lookup(UserParams(f), "limit").None?
    ensures f.userLimit > 0 ==> Lookup(UserParams(f), "limit") == Some(NatToDecimal(f.userLimit))
    ensures f.userLimit > 0 ==> IsDecimal(Lookup(UserParams(f), "limit").value)
  {
    var es := UserEntries(f);
    NumValueOf(f.userLimit);
    NumValueOf(f.pageNum);
    OrdersPlain();
    FieldsWellformed(es);
    DecodeEncode(UserParams(f));
    UserParamsValues(f);
    assert UserQuery(c, f).url[|UserSearchPrefix + c|..] == Encode(UserParams(f));
  }

  /** A requested comment URL carries exactly one parameter, the post, read back as the filter. */
  lemma CommentRoundTrip(c: Client, f: CommentFilter)
    requires f.postID != 0
    ensures CommentQuery(c, f).Request?
    ensures CommentQuery(c, f).url[..|CommentSearchPrefix + c|] == CommentSearchPrefix + c
    ensures CommentQuery(c, f).url[|CommentSearchPrefix + c|..] == Encode([Param("post_id", NatToDecimal(f.postID))])
    ensures Decode(CommentQuery(c, f).url[|CommentSearchPrefix + c|..]) == [Param("post_id", NatToDecimal(f.postID))]
    ensures CommentFilterOf(Decode(CommentQuery(c, f).url[|CommentSearchPrefix + c|..])) == f
  {
    var p, pre := Param("post_id", NatToDecimal(f.postID)), CommentSearchPrefix + c;
    var tail := "&post_id=" + p.value;
    NumValueOf(f.postID);
    AppendAssoc(pre, "&post_id=", p.value);
    assert (pre + tail)[|pre|..] == tail;
    assert "&" + p.key + "=" + p.value == tail;
    EncodeSingle(p);
    DecodeSingle(p);
  }
}
