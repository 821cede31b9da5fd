/** The older client, package `gobooru` (root api.go), as written: every parameter is written
    whatever its value, tags and users are searched on the post endpoint, the tag limit is 100 and the
    ordering is not checked. Its filter records are field for field those of the current package. */
module Gobooru {
  import opened Wrappers
  import opened Decimal
  import opened Strings
  import opened Query
  import Gel

  const BaseUrl := "https://gelbooru.com/index.php?"
  const BasePostSearchUrl := BaseUrl + "page=dapi&s=post&q=index"
  const BaseTagsSearchUrl := BaseUrl + "page=dapi&s=tag&q=index"
  const BaseUserSearchUrl := BaseUrl + "page=dapi&s=user&q=index"
  const BaseCommentsUrl := BaseUrl + "page=dapi&s=comment&q=index"

  type Client = string

  /** The authentication suffix; its second parameter lacks the `=` after `user_id`. */
  function NewClient(key: string, user: string): (c: Client)
    ensures c == "" <==> key == "" || user == ""
  {
    if |key| == 0 || |user| == 0 then "" else "&api_key=" + key + "&user_id" + user
  }

  // The parameters each search writes: all of them, whatever their values, under exactly the keys of
  // the current package and in its order.

  function PostParams(f: Gel.PostFilter): (ps: seq<Param>)
    ensures Keys(ps) == Gel.PostOrder
  {
    [Param("pid", NatToDecimal(f.pageNum)), Param("limit", NatToDecimal(f.postLimit)),
     Param("cid", NatToDecimal(f.changeID)), Param("id", NatToDecimal(f.postID)), Param("tags", Join(f.tags, '+'))]
  }

  function TagParams(f: Gel.TagFilter): (ps: seq<Param>)
    ensures Keys(ps) == Gel.TagOrder
  {
    [Param("id", NatToDecimal(f.tagID)), Param("limit", NatToDecimal(f.tagLimit)),
     Param("after_id", NatToDecimal(f.afterID)), Param("name", f.name), Param("names", Join(f.names, '+')),
     Param("name_pattern", f.namePattern), Param("orderby", f.orderBy)]
  }

  /** The limit's value starts with the two characters `%d` the source writes before the decimal. */
  function UserParams(f: Gel.UserFilter): (ps: seq<Param>)
    ensures Keys(ps) == Gel.UserOrder
  {
    [Param("limit", "%d" + NatToDecimal(f.userLimit)), Param("pid", NatToDecimal(f.pageNum)),
     Param("name", f.userName), Param("name_pattern", f.namePattern)]
  }

  /** What SearchPosts does: refuse a limit over 100, else request the post URL. */
  function PostQuery(c: Client, f: Gel.PostFilter): (d: Dispatch)
    ensures d.Invalid? <==> f.postLimit > 100
  {
    if f.postLimit > 100 then Invalid("post limit can not be greater then 100")
    else Request(BasePostSearchUrl + c + Encode(PostParams(f)))
  }

  /** What SearchTags does: refuse a limit over 100, else request tags on the post URL. */
  function TagQuery(c: Client, f: Gel.TagFilter): (d: Dispatch)
    ensures d.Invalid? <==> f.tagLimit > 100
  {
    if f.tagLimit > 100 then Invalid("tag limit can not be greater then 100")
    else Request(BasePostSearchUrl + c + Encode(TagParams(f)))
  }

  /** What SearchUsers does: refuse a limit over 100, else request users on the post URL. */
  function UserQuery(c: Client, f: Gel.UserFilter): (d: Dispatch)
    ensures d.Invalid? <==> f.userLimit > 100
  {
    if f.userLimit > 100 then Invalid("user limit can not be greater then 100")
    else Request(BasePostSearchUrl + c + Encode(UserParams(f)))
  }

  /** What SearchComments does: refuse post 0, else request the comments of that post. */
  function CommentQuery(c: Client, f: Gel.CommentFilter): (d: Dispatch)
    ensures d.Invalid? <==> f.postID == 0
  {
    if f.postID == 0 then Invalid("invalid PostID 0")
    else Request(BaseCommentsUrl + c + "&post_id=" + NatToDecimal(f.postID))
  }

  // The writes to the URL accumulator.

  /** Writes "&key=" and then the value. */
  method Write(url: string, key: string, value: string) returns (r: string)
    ensures r == url + Encode([Param(key, value)])
  {
    EncodeSingle(Param(key, value));
    r := url + "&" + key + "=" + value;
  }

  /** Writes "&key=" and then the range loop over the list: a `+` before every element but the first. */
  method WriteList(url: string, key: string, xs: seq<string>) returns (r: string)
    ensures r == url + Encode([Param(key, Join(xs, '+'))])
  {
    EncodeSingle(Param(key, Join(xs, '+')));
    r := url + "&" + key + "=";
    ghost var start := r;
    for i := 0 to |xs|
      invariant r == start + Join(xs[..i], '+')
    {
      JoinStep(xs, i, '+');
      if i > 0 {
        r := r + "+";
      }
      r := r + xs[i];
    }
    assert xs[..|xs|] == xs;
  }

  /** SearchPosts up to the call of `request`. */
  method SearchPosts(c: Client, f: Gel.PostFilter) returns (d: Dispatch)
    ensures d == PostQuery(c, f)
  {
    if f.postLimit > 100 {
      return Invalid("post limit can not be greater then 100");
    }
    var url := BasePostSearchUrl + c;
    url := Write(url, "pid", NatToDecimal(f.pageNum));
    url := Write(url, "limit", NatToDecimal(f.postLimit));
    url := Write(url, "cid", NatToDecimal(f.changeID));
    url := Write(url, "id", NatToDecimal(f.postID));
    url := WriteList(url, "tags", f.tags);
    Writes5(BasePostSearchUrl + c, PostParams(f));
    return Request(url);
  }

  /** SearchTags up to the call of `request`. */
  method SearchTags(c: Client, f: Gel.TagFilter) returns (d: Dispatch)
    ensures d == TagQuery(c, f)
  {
    if f.tagLimit > 100 {
      return Invalid("tag limit can not be greater then 100");
    }
    var url := BasePostSearchUrl + c;
    url := Write(url, "id", NatToDecimal(f.tagID));
    url := Write(url, "limit", NatToDecimal(f.tagLimit));
    url := Write(url, "after_id", NatToDecimal(f.afterID));
    url := Write(url, "name", f.name);
    url := WriteList(url, "names", f.names);
    url := Write(url, "name_pattern", f.namePattern);
    url := Write(url, "orderby", f.orderBy);
    Writes7(BasePostSearchUrl + c, TagParams(f));
    return Request(url);
  }

  /** SearchUsers up to the call of `request`. */
  method SearchUsers(c: Client, f: Gel.UserFilter) returns (d: Dispatch)
    ensures d == UserQuery(c, f)
  {
    if f.userLimit > 100 {
      return Invalid("user limit can not be greater then 100");
    }
    var url := BasePostSearchUrl + c;
    url := Write(url, "limit", "%d" + NatToDecimal(f.userLimit));
    url := Write(url, "pid", NatToDecimal(f.pageNum));
    url := Write(url, "name", f.userName);
    url := Write(url, "name_pattern", f.namePattern);
    Writes4(BasePostSearchUrl + c, UserParams(f));
    return Request(url);
  }

  /** SearchComments up to the call of `request`. */
  method SearchComments(c: Client, f: Gel.CommentFilter) returns (d: Dispatch)
    ensures d == CommentQuery(c, f)
  {
    if f.postID == 0 {
      return Invalid("invalid PostID 0");
    }
    var url := BaseCommentsUrl + c;
    url := url + "&post_id=";
    url := url + NatToDecimal(f.postID);
    return Request(url);
  }

  // Encoding a parameter list is writing its parameters one after the other.

  lemma Writes4(base: string, ps: seq<Param>)
    requires |ps| == 4
    ensures base + Encode(ps) ==
      base + Encode([ps[0]]) + Encode([ps[1]]) + Encode([ps[2]]) + Encode([ps[3]])
  {
    assert ps == [ps[0]] + [ps[1]] + [ps[2]] + [ps[3]];
    EncodeAfter(base, [ps[0]] + [ps[1]] + [ps[2]], [ps[3]]);
    EncodeAfter(base, [ps[0]] + [ps[1]], [ps[2]]);
    EncodeAfter(base, [ps[0]], [ps[1]]);
  }

  lemma Writes5(base: string, ps: seq<Param>)
    requires |ps| == 5
    ensures base + Encode(ps) ==
      base + Encode([ps[0]]) + Encode([ps[1]]) + Encode([ps[2]]) + Encode([ps[3]]) + Encode([ps[4]])
  {
    assert ps == ps[..4] + [ps[4]];
    EncodeAfter(base, ps[..4], [ps[4]]);
    Writes4(base, ps[..4]);
  }

  lemma Writes7(base: string, ps: seq<Param>)
    requires |ps| == 7
    ensures base + Encode(ps) ==
      base + Encode([ps[0]]) + Encode([ps[1]]) + Encode([ps[2]]) + Encode([ps[3]]) + Encode([ps[4]])
      + Encode([ps[5]]) + Encode([ps[6]])
  {
    assert ps == ps[..6] + [ps[6]];
    EncodeAfter(base, ps[..6], [ps[6]]);
    assert ps[..6] == ps[..5] + [ps[5]];
    EncodeAfter(base, ps[..5], [ps[5]]);
    Writes5(base, ps[..5]);
  }

  // What the older URLs say.

  /** The suffix reads back as the key and a parameter named `user_id` followed by the user, with an
      empty value: no parameter is named `user_id`. */
  lemma ClientLosesUserId(key: string, user: string)
    requires key != "" && user != "" && '&' !in key && '&' !in user && '=' !in user
    ensures Decode(NewClient(key, user)) == [Param("api_key", key), Param("user_id" + user, "")]
    ensures Lookup(Decode(NewClient(key, user)), "user_id") == None
  {
    var b := "user_id" + user;
    ClientParts(key, user);
    var ps := [Param("api_key", key), Param(b, "")];
    assert ps[1..] == [Param(b, "")] && ps[1..][1..] == [];
    assert "api_key" != "user_id" && b != "user_id" by {
      assert "api_key"[0] != "user_id"[0];
      assert |b| > |"user_id"|;
    }
    assert Lookup(ps[1..], "user_id") == None;
    assert Lookup(ps, "user_id") == None;
  }

  lemma ClientParts(key: string, user: string)
    requires key != "" && user != "" && '&' !in key && '&' !in user && '=' !in user
    ensures Decode(NewClient(key, user)) == [Param("api_key", key), Param("user_id" + user, "")]
  {
    var a, b := "api_key=" + key, "user_id" + user;
    ClientSplit(key, user);
    assert Split(NewClient(key, user), '&')[1..] == [a, b];
    assert [a, b][..1] == [a] && [a][..0] == [];
    assert ParsePairs([a]) == [ParsePair(a)];
    ParsePairOf(Param("api_key", key));
    assert Pair(Param("api_key", key)) == a;
    ParsePairNoEq(b);
  }

  lemma ClientSplit(key: string, user: string)
    requires '&' !in key && '&' !in user && key != "" && user != ""
    ensures Split(NewClient(key, user), '&') == ["", "api_key=" + key, "user_id" + user]
  {
    var a, b := "api_key=" + key, "user_id" + user;
    var t := "" + ['&'] + a;
    assert '&' !in a && '&' !in b;
    assert NewClient(key, user) == t + ['&'] + b;
    SplitConcat("", a, '&');
    SplitConcat(t, b, '&');
  }

  /** The zero post filter still writes every parameter: "0" for each number and a bare `tags=`. */
  lemma ZeroPostParams()
    ensures PostParams(Gel.PostFilter(0, 0, 0, [], 0)) ==
      [Param("pid", "0"), Param("limit", "0"), Param("cid", "0"), Param("id", "0"), Param("tags", "")]
  {
  }

  /** No tags and one empty tag write the same URL. */
  lemma EmptyTagsCollide(f: Gel.PostFilter)
    ensures PostParams(f.(tags := [])) == PostParams(f.(tags := [""]))
  {
  }

  lemma KeysPlain(ps: seq<Param>, ks: seq<string>)
    requires Keys(ps) == ks && PlainKeys(ks)
    requires forall i :: 0 <= i < |ps| ==> '&' !in ps[i].value
    ensures AllWellformed(ps)
  {
    assert forall i :: 0 <= i < |ps| ==> Keys(ps)[i] == ps[i].key;
  }

  /** Every post field is written under its own key, the first with that key. */
  lemma PostParamsValues(f: Gel.PostFilter)
    ensures Lookup(PostParams(f), "pid") == Some(NatToDecimal(f.pageNum))
    ensures Lookup(PostParams(f), "limit") == Some(NatToDecimal(f.postLimit))
    ensures Lookup(PostParams(f), "cid") == Some(NatToDecimal(f.changeID))
    ensures Lookup(PostParams(f), "id") == Some(NatToDecimal(f.postID))
    ensures Lookup(PostParams(f), "tags") == Some(Join(f.tags, '+'))
  {
    var ps := PostParams(f);
    LookupFirst(ps, 0);
    LookupFirst(ps, 1);
    LookupFirst(ps, 2);
    LookupFirst(ps, 3);
    LookupFirst(ps, 4);
  }

  /** Every tag field is written under its own key, the first with that key. */
  lemma TagParamsValues(f: Gel.TagFilter)
    ensures Lookup(TagParams(f), "id") == Some(NatToDecimal(f.tagID))
    ensures Lookup(TagParams(f), "limit") == Some(NatToDecimal(f.tagLimit))
    ensures Lookup(TagParams(f), "after_id") == Some(NatToDecimal(f.afterID))
    ensures Lookup(TagParams(f), "name") == Some(f.name)
    ensures Lookup(TagParams(f), "names") == Some(Join(f.names, '+'))
    ensures Lookup(TagParams(f), "name_pattern") == Some(f.namePattern)
    ensures Lookup(TagParams(f), "orderby") == Some(f.orderBy)
  {
    var ps := TagParams(f);
    LookupFirst(ps, 0);
    LookupFirst(ps, 1);
    LookupFirst(ps, 2);
    LookupFirst(ps, 3);
    LookupFirst(ps, 4);
    LookupFirst(ps, 5);
    LookupFirst(ps, 6);
  }

  /** Reading a written post URL back gives the filter, for non-empty plain tags. */
  lemma PostParamsRead(f: Gel.PostFilter)
    requires |f.tags| > 0 && Gel.PlainList(f.tags)
    ensures Gel.PostFilterOf(Decode(Encode(PostParams(f)))) == f
  {
    var ps := PostParams(f);
    DecimalsPlain(f.pageNum, f.postLimit, f.changeID, f.postID);
    JoinAvoids(f.tags, '+', '&');
    Gel.OrdersPlain();
    KeysPlain(ps, Gel.PostOrder);
    DecodeEncode(ps);
    PostParamsValues(f);
    SplitJoin(f.tags, '+');
    DecimalRoundTrip(f.pageNum);
    DecimalRoundTrip(f.postLimit);
    DecimalRoundTrip(f.changeID);
    DecimalRoundTrip(f.postID);
  }

  /** Reading a written tag URL back gives the filter, whatever its ordering. */
  lemma TagParamsRead(f: Gel.TagFilter)
    requires |f.names| > 0 && Gel.PlainList(f.names)
    requires '&' !in f.name && '&' !in f.namePattern && '&' !in f.orderBy
    ensures Gel.TagFilterOf(Decode(Encode(TagParams(f)))) == f
  {
    var ps := TagParams(f);
    DecimalsPlain(f.tagID, f.tagLimit, f.afterID, 0);
    JoinAvoids(f.names, '+', '&');
    Gel.OrdersPlain();
    KeysPlain(ps, Gel.TagOrder);
    DecodeEncode(ps);
    TagParamsValues(f);
    SplitJoin(f.names, '+');
    DecimalRoundTrip(f.tagID);
    DecimalRoundTrip(f.tagLimit);
    DecimalRoundTrip(f.afterID);
  }

  /** A requested post URL is the post endpoint and the client followed by parameters that read back
      as the filter, for non-empty plain tags. */
  lemma PostRoundTrip(c: Client, f: Gel.PostFilter)
    requires f.postLimit <= 100 && |f.tags| > 0 && Gel.PlainList(f.tags)
    ensures PostQuery(c, f).Request?
    ensures PostQuery(c, f).url[..|BasePostSearchUrl + c|] == BasePostSearchUrl + c
    ensures Gel.PostFilterOf(Decode(PostQuery(c, f).url[|BasePostSearchUrl + c|..])) == f
  {
    PostParamsRead(f);
    assert PostQuery(c, f).url[|BasePostSearchUrl + c|..] == Encode(PostParams(f));
  }

  /** A requested tag URL is the post endpoint and the client followed by parameters that read back
      as the filter, for a non-empty plain name list and whatever the ordering. */
  lemma TagRoundTrip(c: Client, f: Gel.TagFilter)
    requires f.tagLimit <= 100 && |f.names| > 0 && Gel.PlainList(f.names)
    requires '&' !in f.name && '&' !in f.namePattern && '&' !in f.orderBy
    ensures TagQuery(c, f).Request?
    ensures TagQuery(c, f).url[..|BasePostSearchUrl + c|] == BasePostSearchUrl + c
    ensures Gel.TagFilterOf(Decode(TagQuery(c, f).url[|BasePostSearchUrl + c|..])) == f
  {
    TagParamsRead(f);
    assert TagQuery(c, f).url[|BasePostSearchUrl + c|..] == Encode(TagParams(f));
  }

  /** The user URL carries its limit as `%d` followed by the decimal, which is no number. */
  lemma UserLimitGarbled(c: Client, f: Gel.UserFilter)
    requires f.userLimit <= 100 && '&' !in f.userName && '&' !in f.namePattern
    ensures UserQuery(c, f).Request?
    ensures Decode(UserQuery(c, f).url[|BasePostSearchUrl + c|..]) == UserParams(f)
    ensures Lookup(UserParams(f), "limit") == Some("%d" + NatToDecimal(f.userLimit))
    ensures !IsDecimal("%d" + NatToDecimal(f.userLimit))
  {
    var ps := UserParams(f);
    DecimalsPlain(f.userLimit, f.pageNum, 0, 0);
    assert '&' !in "%d" + NatToDecimal(f.userLimit);
    Gel.OrdersPlain();
    KeysPlain(ps, Gel.UserOrder);
    DecodeEncode(ps);
    assert UserQuery(c, f).url[|BasePostSearchUrl + c|..] == Encode(ps);
    assert !IsDigit('%');
  }

  /** A tag search requests the post endpoint, never the tag one. */
  lemma TagsHitPostEndpoint(c: Client, f: Gel.TagFilter)
    requires f.tagLimit <= 100
    ensures TagQuery(c, f).Request?
    ensures TagQuery(c, f).url[..|BasePostSearchUrl|] == BasePostSearchUrl
    ensures !(BaseTagsSearchUrl <= TagQuery(c, f).url)
  {
    EndpointsDiffer(TagQuery(c, f).url, BaseTagsSearchUrl);
  }

  /** A user search requests the post endpoint, never the user one. */
  lemma UsersHitPostEndpoint(c: Client, f: Gel.UserFilter)
    requires f.userLimit <= 100
    ensures UserQuery(c, f).Request?
    ensures UserQuery(c, f).url[..|BasePostSearchUrl|] == BasePostSearchUrl
    ensures !(BaseUserSearchUrl <= UserQuery(c, f).url)
  {
    EndpointsDiffer(UserQuery(c, f).url, BaseUserSearchUrl);
  }

  /** A requested comment URL carries exactly one parameter, the post, read back as the filter. */
  lemma CommentRoundTrip(c: Client, f: Gel.CommentFilter)
    requires f.postID != 0
    ensures CommentQuery(c, f).Request?
    ensures CommentQuery(c, f).url[..|BaseCommentsUrl + c|] == BaseCommentsUrl + c
    ensures Gel.CommentFilterOf(Decode(CommentQuery(c, f).url[|BaseCommentsUrl + c|..])) == f
  {
    var p, pre := Param("post_id", NatToDecimal(f.postID)), BaseCommentsUrl + c;
    var tail := "&post_id=" + p.value;
    DecimalsPlain(f.postID, 0, 0, 0);
    DecimalRoundTrip(f.postID);
    AppendAssoc(pre, "&post_id=", p.value);
    assert (pre + tail)[|pre|..] == tail;
    assert "&" + p.key + "=" + p.value == tail;
    DecodeSingle(p);
  }

  // Helpers.

  lemma DecimalsPlain(a: nat, b: nat, c: nat, d: nat)
    ensures '&' !in NatToDecimal(a) && '&' !in NatToDecimal(b) && '&' !in NatToDecimal(c) && '&' !in NatToDecimal(d)
  {
    assert !IsDigit('&');
  }

  /**
   * A URL that starts with the post endpoint does not start with another
   * endpoint whose resource name, the text after `s=`, begins with another letter.
   */
  lemma EndpointsDiffer(url: string, other: string)
    requires BasePostSearchUrl <= url
    requires |BaseUrl + "page=dapi&s="| < |other|
    requires other[|BaseUrl + "page=dapi&s="|] != BasePostSearchUrl[|BaseUrl + "page=dapi&s="|]
    ensures !(other <= url)
  {
    var i := |BaseUrl + "page=dapi&s="|;
    assert url[i] == BasePostSearchUrl[i];
  }
}
