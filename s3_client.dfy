/**
 * The request layer of the object-storage client (`pkg/s3_client.go`).
 *
 * The HTTP round trip is replaced by an environment of oracles (`Env`): the
 * reply to the n-th request the client ever sends, the JSON decoder for a
 * bucket, the file system and the content-type sniffer. Every operation is
 * given twice: as a pure function `XRun(cfg, env, n, ...)` saying which
 * requests it sends and what it returns when its first request is the n-th
 * one, and as a method of `S3Client` that appends to a request log and is
 * proved to do exactly what `XRun` says.
 */
module S3 {
  import opened Wrappers
  import opened Types

  /** The management API root every URL is built on. */
  const PATH: string := "api/v1/s3"

  /** The fields of the Go client value (its HTTP client aside). */
  datatype Config = Config(s3Url: string, region: string, bearerToken: string, path: string)

  // ---------------------------------------------------------------------------
  // URL builder
  // ---------------------------------------------------------------------------

  /** `https://<host>/<path>/<resource>`: the part of a URL before any query. */
  function BaseUrl(cfg: Config, resource: string): string
  {
    "https://" + cfg.s3Url + "/" + cfg.path + "/" + resource
  }

  /** `mountUrl`: the base URL, followed by `?query` when a query is given. */
  function MountUrl(cfg: Config, resource: string, query: string): string
  {
    if query != "" then
      "https://" + cfg.s3Url + "/" + cfg.path + "/" + resource + "?" + query
    else
      "https://" + cfg.s3Url + "/" + cfg.path + "/" + resource
  }

  /** The URL is the base URL, then `?query` exactly when a query is given. */
  lemma MountUrlShape(cfg: Config, resource: string, query: string)
    ensures var url := MountUrl(cfg, resource, query);
            && BaseUrl(cfg, resource) <= url
            && (query == "" ==> url == BaseUrl(cfg, resource))
            && (query != "" ==> url[|BaseUrl(cfg, resource)|..] == "?" + query)
  {
  }

  /** Splits a URL at its first `?`: the part before it and, if there is one, the query after it. */
  function SplitQuery(url: string): (string, Option<string>)
  {
    if url == [] then ([], None)
    else if url[0] == '?' then ([], Some(url[1..]))
    else
      var (base, query) := SplitQuery(url[1..]);
      ([url[0]] + base, query)
  }

  lemma {:induction false} SplitQueryAfter(prefix: string, rest: string)
    requires '?' !in prefix
    ensures SplitQuery(prefix + rest) == (prefix + SplitQuery(rest).0, SplitQuery(rest).1)
  {
    var url := prefix + rest;
    if prefix == [] {
      assert url == rest;
      assert prefix + SplitQuery(rest).0 == SplitQuery(rest).0;
    } else {
      assert url[0] == prefix[0] && prefix[0] != '?';
      assert url[1..] == prefix[1..] + rest;
      SplitQueryAfter(prefix[1..], rest);
      assert SplitQuery(url) == ([url[0]] + SplitQuery(url[1..]).0, SplitQuery(url[1..]).1);
      assert [prefix[0]] + (prefix[1..] + SplitQuery(rest).0) == prefix + SplitQuery(rest).0;
    }
  }

  /**
   * A URL built by `mountUrl` from a host, root and resource without `?`
   * splits back into its base and its query: a `?` appears if and only if a
   * query was given, and exactly the query follows it.
   */
  lemma MountUrlSplits(cfg: Config, resource: string, query: string)
    requires '?' !in cfg.s3Url && '?' !in cfg.path && '?' !in resource
    ensures SplitQuery(MountUrl(cfg, resource, query))
            == (BaseUrl(cfg, resource), if query == "" then None else Some(query))
  {
    var base := BaseUrl(cfg, resource);
    assert '?' !in base;
    if query == "" {
      SplitQueryAfter(base, []);
      assert base + [] == base;
    } else {
      assert MountUrl(cfg, resource, query) == base + ("?" + query);
      SplitQueryAfter(base, "?" + query);
      assert ("?" + query)[0] == '?' && ("?" + query)[1..] == query;
      assert SplitQuery("?" + query) == ([], Some(query));
      assert base + [] == base;
    }
  }

  // ---------------------------------------------------------------------------
  // Requests, replies and the environment
  // ---------------------------------------------------------------------------

  datatype Method = GET | PUT | POST | DELETE

  /** One header line, in the order `Header.Add` receives it. */
  datatype Header = Header(name: string, value: string)

  /** The `grantee` object of an ACL grant; an unknown user kind leaves it empty. */
  datatype Grantee = GranteeId(id: string) | GranteeUri(uri: string) | NoGrantee

  datatype Grant = Grant(grantee: Grantee, permission: string)

  /** A value of a CORS rule field as the resource data holds it. */
  datatype CorsValue = StringList(items: seq<string>) | Number(n: int)

  /** One CORS rule: field name to value, in the caller's casing. */
  type CorsRule = map<string, CorsValue>

  /** The `map[string][]interface{}` that `BucketCors` serialises. */
  type CorsDocument = map<string, seq<map<string, CorsValue>>>

  /**
   * A request body. Bodies built by hand are exact strings; bodies built by
   * `json.Marshal` are kept as the structure that was marshalled.
   */
  datatype Payload =
    | Text(text: string)
    | Binary(bytes: seq<bv8>)
    | AclDocument(owner: Owner, grants: seq<Grant>)
    | CorsRules(doc: CorsDocument)

  datatype Request = Request(verb: Method, url: string, body: Option<Payload>, headers: seq<Header>)

  /**
   * What the network does with a request: a status and body, a failure to
   * send it, or a 200 answer whose body cannot be read.
   */
  datatype Reply = Answered(status: int, body: string) | TransportFailed(error: string) | UnreadableBody(error: string)

  /** `json.Unmarshal` into a `*Bucket`: a bucket, a nil pointer (`null`), or a decoding error. */
  datatype Decoded = DecodedBucket(bucket: Bucket) | DecodedNull | DecodeFailed(error: string)

  datatype Env = Env(
    reply: nat -> Reply,
    decodeBucket: string -> Decoded,
    readFile: string -> Result<seq<bv8>>,
    detectContentType: seq<bv8> -> string)

  /** What the Go JSON decoder is known to do: an empty text is not JSON. */
  predicate RejectsEmptyJson(env: Env)
  {
    env.decodeBucket("").DecodeFailed?
  }

  /** Result of a client operation: success, a returned error, or a panic that ends the process. */
  datatype Outcome = Pass | Fail(error: string) | Abort(reason: string)

  /** The requests an operation sends, in order, and what it returns. */
  datatype Run<T> = Run(sent: seq<Request>, value: T)

  const STATUS_OK := 200
  const NIL_DEREFERENCE := "invalid memory address or nil pointer dereference"

  // ---------------------------------------------------------------------------
  // doRequest
  // ---------------------------------------------------------------------------

  /** The three headers every `doRequest` sets before the caller's. */
  function AuthHeaders(token: string): seq<Header>
  {
    [Header("Authorization", "Bearer " + token),
     Header("Content-Type", "application/json"),
     Header("accept", "application/json")]
  }

  /** The request `doRequest` sends. */
  function RequestOf(cfg: Config, m: Method, url: string, body: Payload, extra: seq<Header>): Request
  {
    Request(m, url, if body == Text("") then None else Some(body), AuthHeaders(cfg.bearerToken) + extra)
  }

  /**
   * Every request carries the bearer token and the two JSON headers, then
   * the caller's headers in order; an empty text is sent as no body at all.
   */
  lemma RequestHeaders(cfg: Config, m: Method, url: string, body: Payload, extra: seq<Header>)
    ensures var req := RequestOf(cfg, m, url, body, extra);
            && req.verb == m && req.url == url
            && (req.body == None <==> body == Text(""))
            && (req.body != None ==> req.body == Some(body))
            && |req.headers| == 3 + |extra|
            && req.headers[0] == Header("Authorization", "Bearer " + cfg.bearerToken)
            && req.headers[1] == Header("Content-Type", "application/json")
            && req.headers[2] == Header("accept", "application/json")
            && req.headers[3..] == extra
  {
  }

  /**
   * How `doRequest` turns a reply into its result: only status 200 yields
   * the body; any other status yields an empty text and no error.
   */
  function Classify(reply: Reply): (r: Result<string>)
    ensures reply.Answered? && reply.status == STATUS_OK ==> r == Ok(reply.body)
    ensures reply.Answered? && reply.status != STATUS_OK ==> r == Ok("")
    ensures !reply.Answered? ==> r.Err?
    ensures r.Ok? && r.value != "" ==> reply == Answered(STATUS_OK, r.value)
  {
    match reply
    case TransportFailed(e) => Err(e)
    case UnreadableBody(e) => Err(e)
    case Answered(status, body) => if status == STATUS_OK then Ok(body) else Ok("")
  }

  /** An empty successful result does not tell a 200 answer from a rejected request. */
  lemma EmptyResultIsAmbiguous(body: string, status: int)
    requires status != STATUS_OK
    ensures Classify(Answered(status, body)) == Classify(Answered(STATUS_OK, ""))
  {
  }

  /** One `doRequest` call whose request is the n-th the client sends. */
  function Exchange(cfg: Config, env: Env, n: nat, m: Method, url: string, body: Payload, extra: seq<Header>): (r: Run<Result<string>>)
    ensures r.sent == [RequestOf(cfg, m, url, body, extra)]
    ensures r.value == Classify(env.reply(n))
  {
    Run([RequestOf(cfg, m, url, body, extra)], Classify(env.reply(n)))
  }

  function OutcomeOf(r: Result<string>): (o: Outcome)
    ensures o == Pass <==> r.Ok?
    ensures r.Err? ==> o == Fail(r.error)
  {
    match r
    case Ok(_) => Pass
    case Err(e) => Fail(e)
  }

  // ---------------------------------------------------------------------------
  // GetBucket, getBucketObject, CreateBucket
  // ---------------------------------------------------------------------------

  /** `GetBucket`: one GET on `<bucket>?max-keys=1`. */
  function GetBucketRun(cfg: Config, env: Env, n: nat, name: string): (r: Run<Result<string>>)
    ensures r.sent == [RequestOf(cfg, GET, MountUrl(cfg, name, "max-keys=1"), Text(""), [])]
    ensures r.sent[0].body == None && r.sent[0].url == BaseUrl(cfg, name) + "?max-keys=1"
  {
    Exchange(cfg, env, n, GET, MountUrl(cfg, name, "max-keys=1"), Text(""), [])
  }

  /** What `getBucketObject` hands back: a bucket, a nil pointer, or a panic. */
  datatype Fetched = Found(bucket: Bucket) | NilBucket | FetchAborted(reason: string)

  /** `getBucketObject`: fetch the bucket and decode it; a failed fetch or decode panics. */
  function GetBucketObjectRun(cfg: Config, env: Env, n: nat, name: string): (r: Run<Fetched>)
    ensures r.sent == GetBucketRun(cfg, env, n, name).sent
    ensures Classify(env.reply(n)).Err? ==> r.value.FetchAborted?
    ensures Classify(env.reply(n)).Ok? ==>
              (r.value.Found? <==> env.decodeBucket(Classify(env.reply(n)).value).DecodedBucket?)
    ensures (RejectsEmptyJson(env) && env.reply(n).Answered? && env.reply(n).status != STATUS_OK)
              ==> r.value.FetchAborted?
    ensures Classify(env.reply(n)).Err? ==> r.value == FetchAborted(Classify(env.reply(n)).error)
    ensures Classify(env.reply(n)).Ok? ==>
              var d := env.decodeBucket(Classify(env.reply(n)).value);
              && (d.DecodedBucket? ==> r.value == Found(d.bucket))
              && (d.DecodedNull? ==> r.value == NilBucket)
              && (d.DecodeFailed? ==> r.value == FetchAborted(d.error))
  {
    var got := GetBucketRun(cfg, env, n, name);
    match got.value
    case Err(e) => Run(got.sent, FetchAborted(e))
    case Ok(text) =>
      match env.decodeBucket(text)
      case DecodedBucket(b) => Run(got.sent, Found(b))
      case DecodedNull => Run(got.sent, NilBucket)
      case DecodeFailed(e) => Run(got.sent, FetchAborted(e))
  }

  /** The body `CreateBucket` formats by hand. */
  function CreateBody(name: string, region: string): string
  {
    "{\"name\":\"" + name + "\", \"locationConstraint\":\"" + region + "\"}"
  }

  /** `CreateBucket`: one PUT on the bucket with its name and the client's region. */
  function CreateBucketRun(cfg: Config, env: Env, n: nat, name: string): (r: Run<Outcome>)
    ensures r.sent == [RequestOf(cfg, PUT, MountUrl(cfg, name, ""), Text(CreateBody(name, cfg.region)), [])]
    ensures r.sent[0].url == BaseUrl(cfg, name)
    ensures r.value == OutcomeOf(Classify(env.reply(n)))
    ensures !r.value.Abort?
  {
    var put := Exchange(cfg, env, n, PUT, MountUrl(cfg, name, ""), Text(CreateBody(name, cfg.region)), []);
    Run(put.sent, OutcomeOf(put.value))
  }

  // ---------------------------------------------------------------------------
  // Tags
  // ---------------------------------------------------------------------------

  datatype Tag = Tag(name: string, value: string)

  const TAG_SET_OPEN: string := "{\"tagSets\":[ {\"tags\":["
  const TAG_SET_CLOSE: string := "]}]}"
  const TAG_KEY: string := "{\"key\":\""
  const TAG_VALUE: string := "\",\"value\":\""
  const TAG_END: string := "\"}"

  /** One `{"key":"<name>","value":"<value>"}` object, written without escaping. */
  function TagJson(t: Tag): string
  {
    TAG_KEY + t.name + TAG_VALUE + t.value + TAG_END
  }

  function TagJsons(tags: seq<Tag>): (r: seq<string>)
    ensures |r| == |tags|
    ensures forall i :: 0 <= i < |tags| ==> r[i] == TagJson(tags[i])
  {
    seq(|tags|, i requires 0 <= i < |tags| => TagJson(tags[i]))
  }

  /** The parts separated by commas, with no comma after the last one. */
  function Join(parts: seq<string>): string
  {
    if parts == [] then ""
    else if |parts| == 1 then parts[0]
    else parts[0] + "," + Join(parts[1..])
  }

  /** Appending a part to a non-empty list adds a comma and the part at the end. */
  lemma {:induction false} JoinSnoc(parts: seq<string>, last: string)
    requires parts != []
    ensures Join(parts + [last]) == Join(parts) + "," + last
  {
    if |parts| > 1 {
      assert (parts + [last])[1..] == parts[1..] + [last];
      JoinSnoc(parts[1..], last);
    } else {
      assert (parts + [last])[1..] == [last];
    }
  }

  /** The separator written after the first `i` tags of `tags`. */
  function TagSeparator(tags: seq<Tag>, i: nat): string
  {
    if 0 < i < |tags| then "," else ""
  }

  /** The document `BucketTags` has built after its first `i` iterations. */
  function TagSetPrefix(tags: seq<Tag>, i: nat): string
    requires i <= |tags|
  {
    TAG_SET_OPEN + Join(TagJsons(tags[..i])) + TagSeparator(tags, i)
  }

  /** One iteration appends the next tag and, unless it is the last, a comma. */
  lemma TagSetStep(tags: seq<Tag>, i: nat)
    requires i < |tags|
    ensures TagSetPrefix(tags, i) + TagJson(tags[i]) + TagSeparator(tags, i + 1) == TagSetPrefix(tags, i + 1)
  {
    var before, t, sep := TagJsons(tags[..i]), TagJson(tags[i]), TagSeparator(tags, i + 1);
    assert TagJsons(tags[..i + 1]) == before + [t];
    if i == 0 {
      assert before == [] && before + [t] == [t];
      assert TAG_SET_OPEN + Join(before) + TagSeparator(tags, i) == TAG_SET_OPEN;
    } else {
      JoinSnoc(before, t);
      assert TagSeparator(tags, i) == ",";
    }
  }

  /** The tag-set document `BucketTags` builds: the tags in input order, comma-separated. */
  function TagSetBody(tags: seq<Tag>): string
  {
    TAG_SET_OPEN + Join(TagJsons(tags)) + TAG_SET_CLOSE
  }

  /** A character a JSON string may hold without escaping. */
  predicate PlainChar(c: char)
  {
    c != '"' && c != '\\' && c >= ' '
  }

  predicate Plain(s: string)
  {
    forall i :: 0 <= i < |s| ==> PlainChar(s[i])
  }

  /** The longest prefix of plain characters and what follows it. */
  function SpanPlain(s: string): (r: (string, string))
    ensures r.0 + r.1 == s
    ensures Plain(r.0)
    ensures r.1 == [] || !PlainChar(r.1[0])
  {
    if s == [] || !PlainChar(s[0]) then ([], s)
    else
      var rest := SpanPlain(s[1..]);
      var head := [s[0]] + rest.0;
      assert head + rest.1 == [s[0]] + (rest.0 + rest.1);
      assert forall i :: 1 <= i < |head| ==> head[i] == rest.0[i - 1];
      (head, rest.1)
  }

  lemma {:induction false} SpanPlainOf(a: string, b: string)
    requires Plain(a)
    requires b == [] || !PlainChar(b[0])
    ensures SpanPlain(a + b) == (a, b)
  {
    if a == [] {
      assert a + b == b;
    } else {
      assert (a + b)[0] == a[0] && PlainChar(a[0]);
      assert (a + b)[1..] == a[1..] + b;
      SpanPlainOf(a[1..], b);
      assert [a[0]] + a[1..] == a;
    }
  }

  /** Reads one tag object of the tag-set document and returns it with the text after it. */
  function ParseTag(s: string): (r: Option<(Tag, string)>)
    ensures r.Some? ==> |r.value.1| < |s|
  {
    if !(TAG_KEY <= s) then None
    else
      var (name, afterName) := SpanPlain(s[|TAG_KEY|..]);
      if !(TAG_VALUE <= afterName) then None
      else
        var (value, afterValue) := SpanPlain(afterName[|TAG_VALUE|..]);
        if !(TAG_END <= afterValue) then None
        else Some((Tag(name, value), afterValue[|TAG_END|..]))
  }

  function ParseTagItems(s: string): Option<seq<Tag>>
    decreases |s|
  {
    match ParseTag(s)
    case None => None
    case Some((t, rest)) =>
      if rest == TAG_SET_CLOSE then Some([t])
      else if rest != [] && rest[0] == ',' then
        match ParseTagItems(rest[1..])
        case None => None
        case Some(ts) => Some([t] + ts)
      else None
  }

  /** A reader for the tag-set document: the tags it lists, in order. */
  function ParseTagSet(body: string): Option<seq<Tag>>
  {
    if !(TAG_SET_OPEN <= body) then None
    else
      var rest := body[|TAG_SET_OPEN|..];
      if rest == TAG_SET_CLOSE then Some([]) else ParseTagItems(rest)
  }

  predicate PlainTag(t: Tag)
  {
    Plain(t.name) && Plain(t.value)
  }

  lemma ParseTagJson(t: Tag, rest: string)
    requires PlainTag(t)
    ensures ParseTag(TagJson(t) + rest) == Some((t, rest))
  {
    var s := TagJson(t) + rest;
    var afterValue := TAG_END + rest;
    var afterName := TAG_VALUE + (t.value + afterValue);
    assert s == TAG_KEY + (t.name + afterName);
    assert s[|TAG_KEY|..] == t.name + afterName;
    assert afterName[0] == '"';
    SpanPlainOf(t.name, afterName);
    assert afterName[|TAG_VALUE|..] == t.value + afterValue;
    assert afterValue[0] == '"';
    SpanPlainOf(t.value, afterValue);
    assert afterValue[|TAG_END|..] == rest;
  }


  lemma {:induction false} ParseTagItemsJoin(tags: seq<Tag>)
    requires tags != []
    requires forall i :: 0 <= i < |tags| ==> PlainTag(tags[i])
    ensures ParseTagItems(Join(TagJsons(tags)) + TAG_SET_CLOSE) == Some(tags)
  {
    var parts := TagJsons(tags);
    var t := tags[0];
    assert parts[0] == TagJson(t);
    if |tags| == 1 {
      assert Join(parts) == TagJson(t);
      ParseTagJson(t, TAG_SET_CLOSE);
      assert [t] == tags;
    } else {
      var tail := TagJsons(tags[1..]);
      assert parts[1..] == tail;
      assert Join(parts) + TAG_SET_CLOSE == TagJson(t) + "," + (Join(tail) + TAG_SET_CLOSE);
      ParseTagItemsCons(t, Join(tail) + TAG_SET_CLOSE);
      ParseTagItemsJoin(tags[1..]);
      assert [t] + tags[1..] == tags;
    }
  }

  /** A tag followed by a comma is read, then the rest of the list. */
  lemma ParseTagItemsCons(t: Tag, more: string)
    requires PlainTag(t)
    ensures ParseTagItems(TagJson(t) + "," + more) ==
              if ParseTagItems(more).Some? then Some([t] + ParseTagItems(more).value) else None
  {
    var rest := "," + more;
    assert TagJson(t) + "," + more == TagJson(t) + rest;
    ParseTagJson(t, rest);
    assert rest != TAG_SET_CLOSE by {
      assert rest[0] == ',' && TAG_SET_CLOSE[0] == ']';
    }
    assert rest[1..] == more;
  }

  /**
   * The tag-set document lists exactly the given tags, in order, when their
   * names and values need no escaping.
   */
  lemma TagSetBodyRoundTrip(tags: seq<Tag>)
    requires forall i :: 0 <= i < |tags| ==> PlainTag(tags[i])
    ensures ParseTagSet(TagSetBody(tags)) == Some(tags)
  {
    var body := TagSetBody(tags);
    assert body[|TAG_SET_OPEN|..] == Join(TagJsons(tags)) + TAG_SET_CLOSE;
    if tags != [] {
      ParseTagItemsJoin(tags);
      assert TagJsons(tags)[0] == TagJson(tags[0]);
      assert |Join(TagJsons(tags))| > 0;
    }
  }

  lemma ParseTagStopsAtQuote(name: string, before: string, afterQuote: string)
    requires Plain(name) && Plain(before)
    requires afterQuote != [] && afterQuote[0] == '"'
    requires |afterQuote| < 2 || afterQuote[1] != '}'
    ensures ParseTag(TAG_KEY + name + TAG_VALUE + before + afterQuote) == None
  {
    var s := TAG_KEY + name + TAG_VALUE + before + afterQuote;
    var afterName := TAG_VALUE + before + afterQuote;
    assert s == TAG_KEY + (name + afterName);
    assert s[|TAG_KEY|..] == name + afterName;
    SpanPlainOf(name, afterName);
    assert afterName[|TAG_VALUE|..] == before + afterQuote;
    SpanPlainOf(before, afterQuote);
    assert !(TAG_END <= afterQuote) by {
      if |afterQuote| >= 2 {
        assert afterQuote[1] != TAG_END[1];
      }
    }
  }

  /**
   * A value holding an unescaped quote that does not happen to close the
   * object ends the tag early: the document no longer reads as a tag set.
   */
  lemma QuoteInValueBreaksDocument(name: string, before: string, after: string)
    requires Plain(name) && Plain(before)
    requires after == [] || after[0] != '}'
    ensures ParseTagSet(TagSetBody([Tag(name, before + "\"" + after)])) == None
  {
    var t := Tag(name, before + "\"" + after);
    assert TagJsons([t]) == [TagJson(t)];
    var s := TagJson(t) + TAG_SET_CLOSE;
    assert TagSetBody([t])[|TAG_SET_OPEN|..] == s;
    assert s != TAG_SET_CLOSE by {
      assert s[0] == '{' && TAG_SET_CLOSE[0] == ']';
    }
    var afterQuote := "\"" + after + TAG_END + TAG_SET_CLOSE;
    assert s == TAG_KEY + name + TAG_VALUE + before + afterQuote;
    ParseTagStopsAtQuote(name, before, afterQuote);
  }

  /** `removeBucketTags`: one DELETE on `<bucket>?tagging`. */
  function RemoveBucketTagsRun(cfg: Config, env: Env, n: nat, bucket: string): (r: Run<Outcome>)
    ensures r.sent == [RequestOf(cfg, DELETE, MountUrl(cfg, bucket, "tagging"), Text(""), [])]
  {
    var del := Exchange(cfg, env, n, DELETE, MountUrl(cfg, bucket, "tagging"), Text(""), []);
    Run(del.sent, OutcomeOf(del.value))
  }

  /**
   * `BucketTags`: replace-all. The tagging sub-resource is deleted, then the
   * new tag set is put; what the delete returns is ignored.
   */
  function BucketTagsRun(cfg: Config, env: Env, n: nat, bucket: string, tags: seq<Tag>): (r: Run<Outcome>)
    ensures |r.sent| == 2
    ensures r.sent[0] == RequestOf(cfg, DELETE, MountUrl(cfg, bucket, "tagging"), Text(""), [])
    ensures r.sent[1] == RequestOf(cfg, PUT, MountUrl(cfg, bucket, "tagging"), Text(TagSetBody(tags)), [])
    ensures r.value == OutcomeOf(Classify(env.reply(n + 1)))
  {
    var del := RemoveBucketTagsRun(cfg, env, n, bucket);
    var put := Exchange(cfg, env, n + 1, PUT, MountUrl(cfg, bucket, "tagging"), Text(TagSetBody(tags)), []);
    Run(del.sent + put.sent, OutcomeOf(put.value))
  }

  /**
   * Applying the same tag set twice sends the same delete-then-put requests,
   * whatever the network answered before; only the put's reply matters.
   */
  lemma BucketTagsReplaceAll(cfg: Config, env1: Env, env2: Env, n1: nat, n2: nat, bucket: string, tags: seq<Tag>)
    ensures BucketTagsRun(cfg, env1, n1, bucket, tags).sent == BucketTagsRun(cfg, env2, n2, bucket, tags).sent
    ensures env1.reply(n1 + 1) == env2.reply(n2 + 1) ==>
              BucketTagsRun(cfg, env1, n1, bucket, tags).value == BucketTagsRun(cfg, env2, n2, bucket, tags).value
  {
  }

  // ---------------------------------------------------------------------------
  // Object upload
  // ---------------------------------------------------------------------------

  function OverwriteQuery(overwrite: bool): string
  {
    if overwrite then "overwrite=true" else "overwrite=false"
  }

  /**
   * `doUpload`: read the file, sniff its content type, PUT its bytes. Only a
   * read or transport failure is an error; the status is never looked at.
   */
  function DoUploadRun(cfg: Config, env: Env, n: nat, reqUrl: string, source: string): (r: Run<Outcome>)
    ensures env.readFile(source).Err? ==> r == Run([], Fail(env.readFile(source).error))
    ensures env.readFile(source).Ok? ==>
              var data := env.readFile(source).value;
              && r.sent == [Request(PUT, reqUrl, Some(Binary(data)),
                                    [Header("Authorization", "Bearer " + cfg.bearerToken),
                                     Header("Content-Type", env.detectContentType(data))])]
              && (r.value == Pass <==> !env.reply(n).TransportFailed?)
    ensures !r.value.Abort?
  {
    match env.readFile(source)
    case Err(e) => Run([], Fail(e))
    case Ok(data) =>
      var req := Request(PUT, reqUrl, Some(Binary(data)),
                         [Header("Authorization", "Bearer " + cfg.bearerToken),
                          Header("Content-Type", env.detectContentType(data))]);
      Run([req], if env.reply(n).TransportFailed? then Fail(env.reply(n).error) else Pass)
  }

  /** `UploadObject`: upload to `<bucket>/<key>?overwrite=<bool>`. */
  function UploadObjectRun(cfg: Config, env: Env, n: nat, bucket: string, key: string, source: string, overwrite: bool): (r: Run<Outcome>)
    ensures r.sent != [] ==> r.sent[0].url == BaseUrl(cfg, bucket + "/" + key) + "?" + OverwriteQuery(overwrite)
  {
    DoUploadRun(cfg, env, n, MountUrl(cfg, bucket + "/" + key, OverwriteQuery(overwrite)), source)
  }

  /**
   * The content type sent depends on the file's bytes only: two sources with
   * the same contents are uploaded with the same request, whatever their names.
   */
  lemma UploadDependsOnContentsOnly(cfg: Config, env: Env, n: nat, bucket: string, key: string, source1: string, source2: string, overwrite: bool)
    requires env.readFile(source1) == env.readFile(source2)
    ensures UploadObjectRun(cfg, env, n, bucket, key, source1, overwrite)
            == UploadObjectRun(cfg, env, n, bucket, key, source2, overwrite)
  {
  }

  // ---------------------------------------------------------------------------
  // ACLs
  // ---------------------------------------------------------------------------

  const AUTHENTICATED_USERS_URI: string := "http://acs.amazonaws.com/groups/global/AuthenticatedUsers"
  const ALL_USERS_URI: string := "http://acs.amazonaws.com/groups/global/AllUsers"
  const LOG_DELIVERY_URI: string := "http://acs.amazonaws.com/groups/s3/LogDelivery"
  const FULL_CONTROL: string := "FULL_CONTROL"

  /** One entry of the resource's `acl` list. */
  datatype AclEntry = AclEntry(user: string, permission: string)

  /** The grantee a user kind stands for; tenants are addressed as `<tenant>|`. */
  function GranteeFor(user: string, bucket: Bucket): (g: Grantee)
    ensures user == "TENANT" ==> g == GranteeId(bucket.tenant + "|")
    ensures user == "AUTHENTICATED" ==> g == GranteeUri(AUTHENTICATED_USERS_URI)
    ensures user == "PUBLIC" ==> g == GranteeUri(ALL_USERS_URI)
    ensures user == "SYSTEM-LOGGER" ==> g == GranteeUri(LOG_DELIVERY_URI)
    ensures g == NoGrantee <==> user !in {"TENANT", "AUTHENTICATED", "PUBLIC", "SYSTEM-LOGGER"}
  {
    if user == "TENANT" then GranteeId(bucket.tenant + "|")
    else if user == "AUTHENTICATED" then GranteeUri(AUTHENTICATED_USERS_URI)
    else if user == "PUBLIC" then GranteeUri(ALL_USERS_URI)
    else if user == "SYSTEM-LOGGER" then GranteeUri(LOG_DELIVERY_URI)
    else NoGrantee
  }

  /** The grant the owner always receives. */
  function OwnerGrant(owner: Owner): Grant
  {
    Grant(GranteeId(owner.id), FULL_CONTROL)
  }

  /** The grants of the explicit entries, one per entry, in order. */
  function UserGrants(acls: seq<AclEntry>, bucket: Bucket): seq<Grant>
  {
    if acls == [] then []
    else [Grant(GranteeFor(acls[0].user, bucket), acls[0].permission)] + UserGrants(acls[1..], bucket)
  }

  lemma {:induction false} UserGrantsAt(acls: seq<AclEntry>, bucket: Bucket)
    ensures |UserGrants(acls, bucket)| == |acls|
    ensures forall i :: 0 <= i < |acls| ==>
              UserGrants(acls, bucket)[i] == Grant(GranteeFor(acls[i].user, bucket), acls[i].permission)
  {
    if acls != [] {
      UserGrantsAt(acls[1..], bucket);
      forall i | 1 <= i < |acls|
        ensures UserGrants(acls, bucket)[i] == Grant(GranteeFor(acls[i].user, bucket), acls[i].permission)
      {
        assert acls[1..][i - 1] == acls[i];
      }
    }
  }

  /**
   * The loop of `BucketAcls` over the explicit entries: the switch on the
   * user picks the grantee, an unknown user gets an empty one.
   */
  method UserGrantList(acls: seq<AclEntry>, b: Bucket) returns (grants: seq<Grant>)
    ensures grants == UserGrants(acls, b)
  {
    grants := [];
    for i := 0 to |acls|
      invariant |grants| == i
      invariant forall j :: 0 <= j < i ==> grants[j] == Grant(GranteeFor(acls[j].user, b), acls[j].permission)
    {
      var user := acls[i].user;
      var grantee := NoGrantee;
      if user == "TENANT" {
        grantee := GranteeId(b.tenant + "|");
      } else if user == "AUTHENTICATED" {
        grantee := GranteeUri(AUTHENTICATED_USERS_URI);
      } else if user == "PUBLIC" {
        grantee := GranteeUri(ALL_USERS_URI);
      } else if user == "SYSTEM-LOGGER" {
        grantee := GranteeUri(LOG_DELIVERY_URI);
      }
      grants := grants + [Grant(grantee, acls[i].permission)];
    }
    UserGrantsAt(acls, b);
  }

  /** Explicit mode: the entries' grants followed by the owner's FULL_CONTROL. */
  function ExplicitGrants(acls: seq<AclEntry>, bucket: Bucket): seq<Grant>
  {
    UserGrants(acls, bucket) + [OwnerGrant(bucket.owner)]
  }

  /** Default mode: the owner's FULL_CONTROL alone. */
  function DefaultGrants(bucket: Bucket): (grants: seq<Grant>)
    ensures grants == [Grant(GranteeId(bucket.owner.id), FULL_CONTROL)]
  {
    [OwnerGrant(bucket.owner)]
  }

  /**
   * An explicit grant list has one grant per entry, in order, with the
   * entry's grantee and its permission unchanged, and ends with the owner's
   * FULL_CONTROL whether or not an entry already grants it.
   */
  lemma ExplicitGrantsShape(acls: seq<AclEntry>, bucket: Bucket)
    ensures |ExplicitGrants(acls, bucket)| == |acls| + 1
    ensures forall i :: 0 <= i < |acls| ==>
              && ExplicitGrants(acls, bucket)[i].grantee == GranteeFor(acls[i].user, bucket)
              && ExplicitGrants(acls, bucket)[i].permission == acls[i].permission
    ensures ExplicitGrants(acls, bucket)[|acls|] == Grant(GranteeId(bucket.owner.id), FULL_CONTROL)
  {
    UserGrantsAt(acls, bucket);
  }

  /** The `X-Amz-Acl` header: present exactly when a canned ACL is given. */
  function CannedAclHeader(cannedAcl: string): (h: seq<Header>)
    ensures cannedAcl != "" ==> h == [Header("X-Amz-Acl", cannedAcl)]
    ensures cannedAcl == "" ==> h == []
  {
    if |cannedAcl| > 0 && cannedAcl != "" then [Header("X-Amz-Acl", cannedAcl)] else []
  }

  /** The PUT on `<bucket>?acl` with the marshalled owner and grants. */
  function AclPutRun(cfg: Config, env: Env, n: nat, bucketName: string, owner: Owner, grants: seq<Grant>, header: seq<Header>): (r: Run<Outcome>)
    ensures r.sent == [RequestOf(cfg, PUT, MountUrl(cfg, bucketName, "acl"), AclDocument(owner, grants), header)]
    ensures r.value == OutcomeOf(Classify(env.reply(n)))
  {
    var put := Exchange(cfg, env, n, PUT, MountUrl(cfg, bucketName, "acl"), AclDocument(owner, grants), header);
    Run(put.sent, OutcomeOf(put.value))
  }

  /** `defaultAcl`: put the owner-only grant list; a nil bucket panics before any request. */
  function DefaultAclRun(cfg: Config, env: Env, n: nat, bucketName: string, bucket: Option<Bucket>, header: seq<Header>): (r: Run<Outcome>)
    ensures bucket == None ==> r == Run([], Abort(NIL_DEREFERENCE))
    ensures bucket != None ==> r == AclPutRun(cfg, env, n, bucketName, bucket.value.owner, [OwnerGrant(bucket.value.owner)], header)
  {
    match bucket
    case None => Run([], Abort(NIL_DEREFERENCE))
    case Some(b) => AclPutRun(cfg, env, n, bucketName, b.owner, DefaultGrants(b), header)
  }

  /**
   * `BucketAcls`: the bucket is always fetched first; without a bucket the
   * operation panics before any PUT. Otherwise exactly one PUT follows,
   * carrying the `X-Amz-Acl` header in both modes and the default or the
   * explicit grant list.
   */
  function BucketAclsRun(cfg: Config, env: Env, n: nat, bucket: string, setDefault: bool, cannedAcl: string, acls: seq<AclEntry>): Run<Outcome>
  {
    var fetch := GetBucketObjectRun(cfg, env, n, bucket);
    match fetch.value
    case FetchAborted(e) => Run(fetch.sent, Abort(e))
    case NilBucket => Run(fetch.sent, Abort(NIL_DEREFERENCE))
    case Found(b) =>
      // with a bucket at hand, `defaultAcl` is the same PUT with the owner-only grant list
      var put := AclPutRun(cfg, env, n + 1, bucket, b.owner,
                           if setDefault then DefaultGrants(b) else ExplicitGrants(acls, b), CannedAclHeader(cannedAcl));
      Run(fetch.sent + put.sent, put.value)
  }
  /**
   * The bucket is always fetched first; a second request, the ACL PUT, is
   * sent exactly when the bucket was found, otherwise the call aborts. The
   * PUT carries the grants of the mode and the canned header in both modes.
   */
  lemma BucketAclsShape(cfg: Config, env: Env, n: nat, bucket: string, setDefault: bool, cannedAcl: string, acls: seq<AclEntry>)
    ensures var r := BucketAclsRun(cfg, env, n, bucket, setDefault, cannedAcl, acls);
            && 1 <= |r.sent| <= 2
            && r.sent[0] == RequestOf(cfg, GET, MountUrl(cfg, bucket, "max-keys=1"), Text(""), [])
            && (|r.sent| == 2 <==> GetBucketObjectRun(cfg, env, n, bucket).value.Found?)
            && (|r.sent| == 1 ==> r.value.Abort?)
            && (|r.sent| == 2 ==>
                  var b := GetBucketObjectRun(cfg, env, n, bucket).value.bucket;
                  && r.sent[1] == RequestOf(cfg, PUT, MountUrl(cfg, bucket, "acl"),
                                            AclDocument(b.owner, if setDefault then DefaultGrants(b) else ExplicitGrants(acls, b)),
                                            CannedAclHeader(cannedAcl))
                  && r.value == OutcomeOf(Classify(env.reply(n + 1))))
  {
  }


  /** A non-200 answer to the fetch leaves an empty text the decoder rejects: no PUT follows. */
  lemma BucketAclsNon200Aborts(cfg: Config, env: Env, n: nat, bucket: string, setDefault: bool, cannedAcl: string, acls: seq<AclEntry>)
    requires RejectsEmptyJson(env)
    requires env.reply(n).Answered? && env.reply(n).status != STATUS_OK
    ensures BucketAclsRun(cfg, env, n, bucket, setDefault, cannedAcl, acls).sent
            == [RequestOf(cfg, GET, MountUrl(cfg, bucket, "max-keys=1"), Text(""), [])]
    ensures BucketAclsRun(cfg, env, n, bucket, setDefault, cannedAcl, acls).value.Abort?
  {
  }

  // ---------------------------------------------------------------------------
  // toCamelCase and CORS
  // ---------------------------------------------------------------------------

  predicate IsSeparator(c: char)
  {
    c == '-' || c == '_'
  }

  /** `\w` of Go's regular expressions: ASCII letters, digits and underscore. */
  predicate IsWordChar(c: char)
  {
    ('a' <= c <= 'z') || ('A' <= c <= 'Z') || ('0' <= c <= '9') || c == '_'
  }

  function ToUpper(c: char): (u: char)
    ensures 'a' <= c <= 'z' ==> 'A' <= u <= 'Z' && u as int == c as int - 32
    ensures !('a' <= c <= 'z') ==> u == c
  {
    if 'a' <= c <= 'z' then (c as int - 32) as char else c
  }

  /**
   * `toCamelCase`: scanning left to right, each `-` or `_` followed by a word
   * character is replaced by that character upper-cased; matches do not overlap.
   */
  function ToCamelCase(s: string): string
  {
    if |s| < 2 then s
    else if IsSeparator(s[0]) && IsWordChar(s[1]) then [ToUpper(s[1])] + ToCamelCase(s[2..])
    else [s[0]] + ToCamelCase(s[1..])
  }

  /** The number of matches the left-to-right scan replaces. */
  function Replacements(s: string): nat
  {
    if |s| < 2 then 0
    else if IsSeparator(s[0]) && IsWordChar(s[1]) then 1 + Replacements(s[2..])
    else Replacements(s[1..])
  }

  /** A separator followed by a word character somewhere in the string. */
  predicate HasMatch(s: string)
  {
    exists i :: 0 <= i < |s| - 1 && IsSeparator(s[i]) && IsWordChar(s[i + 1])
  }

  /** Each replacement turns two characters into one. */
  lemma {:induction false} CamelCaseLength(s: string)
    ensures |ToCamelCase(s)| == |s| - Replacements(s)
    ensures 2 * Replacements(s) <= |s|
  {
    if |s| >= 2 {
      if IsSeparator(s[0]) && IsWordChar(s[1]) {
        CamelCaseLength(s[2..]);
      } else {
        CamelCaseLength(s[1..]);
      }
    }
  }

  /** The scan replaces something exactly when a separator is followed by a word character. */
  lemma {:induction false} ReplacementsIffMatch(s: string)
    ensures Replacements(s) == 0 <==> !HasMatch(s)
  {
    if |s| >= 2 {
      if IsSeparator(s[0]) && IsWordChar(s[1]) {
        assert HasMatch(s);
      } else {
        ReplacementsIffMatch(s[1..]);
        if HasMatch(s) {
          var i :| 0 <= i < |s| - 1 && IsSeparator(s[i]) && IsWordChar(s[i + 1]);
          assert i >= 1;
          assert s[1..][i - 1] == s[i] && s[1..][i] == s[i + 1];
          assert HasMatch(s[1..]);
        }
        if HasMatch(s[1..]) {
          var j :| 0 <= j < |s[1..]| - 1 && IsSeparator(s[1..][j]) && IsWordChar(s[1..][j + 1]);
          assert s[j + 1] == s[1..][j] && s[j + 2] == s[1..][j + 1];
        }
      }
    }
  }

  /** A string is left unchanged exactly when it holds no separator followed by a word character. */
  lemma {:induction false} CamelCaseFixedPoint(s: string)
    ensures ToCamelCase(s) == s <==> !HasMatch(s)
  {
    CamelCaseLength(s);
    ReplacementsIffMatch(s);
    if !HasMatch(s) {
      NoMatchUnchanged(s);
    }
  }

  lemma {:induction false} NoMatchUnchanged(s: string)
    requires !HasMatch(s)
    ensures ToCamelCase(s) == s
  {
    if |s| >= 2 {
      assert !(IsSeparator(s[0]) && IsWordChar(s[1]));
      forall j | 0 <= j < |s[1..]| - 1
        ensures !(IsSeparator(s[1..][j]) && IsWordChar(s[1..][j + 1]))
      {
        assert s[1..][j] == s[j + 1] && s[1..][j + 1] == s[j + 2];
      }
      NoMatchUnchanged(s[1..]);
    }
  }

  /** Strings without `-` or `_` are left unchanged. */
  lemma NoSeparatorUnchanged(s: string)
    requires forall i :: 0 <= i < |s| ==> !IsSeparator(s[i])
    ensures ToCamelCase(s) == s
  {
    NoMatchUnchanged(s);
  }

  /**
   * At the first match (no separator followed by a word character occurs
   * earlier, the match's own separator included), the separator and the word
   * character after it become that character upper-cased; what comes before
   * is kept and the scan resumes after the match.
   */
  lemma {:induction false} CamelCaseAtSeparator(word: string, sep: char, w: char, rest: string)
    requires !HasMatch(word + [sep])
    requires IsSeparator(sep) && IsWordChar(w)
    ensures ToCamelCase(word + [sep, w] + rest) == word + [ToUpper(w)] + ToCamelCase(rest)
  {
    var s := word + [sep, w] + rest;
    if word == [] {
      assert s == [sep, w] + rest && s[2..] == rest;
    } else {
      var ws, ws1 := word + [sep], word[1..] + [sep];
      var tail := word[1..] + [sep, w] + rest;
      assert s == [word[0]] + tail;
      assert s[0] == ws[0] && s[1] == ws[1];
      assert !(IsSeparator(ws[0]) && IsWordChar(ws[1]));
      assert ToCamelCase(s) == [word[0]] + ToCamelCase(tail);
      forall j | 0 <= j < |ws1| - 1
        ensures !(IsSeparator(ws1[j]) && IsWordChar(ws1[j + 1]))
      {
        assert ws1[j] == ws[j + 1] && ws1[j + 1] == ws[j + 2];
      }
      CamelCaseAtSeparator(word[1..], sep, w, rest);
      assert [word[0]] + (word[1..] + [ToUpper(w)] + ToCamelCase(rest)) == word + [ToUpper(w)] + ToCamelCase(rest);
    }
  }

  /**
   * A two-word snake_case or kebab-case name whose second word starts with a
   * lower-case letter becomes camelCase (`allowed_methods` to `allowedMethods`).
   */
  lemma TwoWordsToCamel(first: string, sep: char, w: char, rest: string)
    requires forall i :: 0 <= i < |first| ==> !IsSeparator(first[i])
    requires forall i :: 0 <= i < |rest| ==> !IsSeparator(rest[i])
    requires IsSeparator(sep) && 'a' <= w <= 'z'
    ensures ToCamelCase(first + [sep, w] + rest) == first + [ToUpper(w)] + rest
  {
    var fs := first + [sep];
    forall i | 0 <= i < |fs| - 1
      ensures !(IsSeparator(fs[i]) && IsWordChar(fs[i + 1]))
    {
      assert fs[i] == first[i];
    }
    CamelCaseAtSeparator(first, sep, w, rest);
    NoSeparatorUnchanged(rest);
  }

  /** The camelCase names of a rule's fields. */
  function CamelKeys(rule: CorsRule): set<string>
  {
    set k | k in rule :: ToCamelCase(k)
  }

  /** `v` is the value of some field of `rule` whose camelCase name is `key`. */
  ghost predicate FromRule(rule: CorsRule, key: string, v: CorsValue)
  {
    exists k :: k in rule && ToCamelCase(k) == key && rule[k] == v
  }

  /** The camelCase names of every field of every rule. */
  function MergedKeys(rules: seq<CorsRule>): set<string>
  {
    if rules == [] then {} else MergedKeys(rules[..|rules| - 1]) + CamelKeys(rules[|rules| - 1])
  }

  /** The index of the last rule that has a field with this camelCase name. */
  function LastWith(rules: seq<CorsRule>, key: string): (i: nat)
    requires key in MergedKeys(rules)
    ensures i < |rules| && key in CamelKeys(rules[i])
    ensures forall j :: i < j < |rules| ==> key !in CamelKeys(rules[j])
  {
    if key in CamelKeys(rules[|rules| - 1]) then |rules| - 1
    else
      var i := LastWith(rules[..|rules| - 1], key);
      assert forall j :: i < j < |rules| - 1 ==> rules[j] == rules[..|rules| - 1][j];
      i
  }

  /** `m` is the key-wise union of the camel-cased rules, later rules overriding earlier ones. */
  ghost predicate MergeOf(rules: seq<CorsRule>, m: map<string, CorsValue>)
  {
    && m.Keys == MergedKeys(rules)
    && forall key :: key in m ==> FromRule(rules[LastWith(rules, key)], key, m[key])
  }

  /**
   * The document `BucketCors` marshals: no `corsRules` key for no rules,
   * otherwise one entry per rule, every entry the same shared merged map.
   */
  ghost predicate SharedCors(rules: seq<CorsRule>, doc: CorsDocument)
  {
    if rules == [] then doc == map[]
    else
      && doc.Keys == {"corsRules"}
      && |doc["corsRules"]| == |rules|
      && (forall i :: 0 <= i < |rules| ==> doc["corsRules"][i] == doc["corsRules"][0])
      && MergeOf(rules, doc["corsRules"][0])
  }

  /** `m` holds exactly the camel-cased fields of `rule`. */
  ghost predicate CamelImage(rule: CorsRule, m: map<string, CorsValue>)
  {
    && m.Keys == CamelKeys(rule)
    && forall key :: key in m ==> FromRule(rule, key, m[key])
  }

  /** The document as evidently intended: entry i holds rule i's fields only. */
  ghost predicate IntendedCors(rules: seq<CorsRule>, doc: CorsDocument)
  {
    if rules == [] then doc == map[]
    else
      && doc.Keys == {"corsRules"}
      && |doc["corsRules"]| == |rules|
      && forall i :: 0 <= i < |rules| ==> CamelImage(rules[i], doc["corsRules"][i])
  }

  /** A single rule is sent as intended: the shared map is then that rule's own. */
  lemma SingleRuleAsIntended(rule: CorsRule, doc: CorsDocument)
    requires SharedCors([rule], doc)
    ensures IntendedCors([rule], doc)
  {
    var m := doc["corsRules"][0];
    assert [rule][..0] == [];
    assert MergedKeys([rule]) == CamelKeys(rule);
    forall key | key in m
      ensures FromRule(rule, key, m[key])
    {
      assert LastWith([rule], key) == 0;
    }
  }

  /**
   * With two rules setting the same field to different values (one allowing
   * GET, the next PUT, say), the shared map gives both entries the later
   * value: the first rule is not sent as written.
   */
  lemma SharedCorsLosesEarlierRule(field: string, earlier: CorsValue, later: CorsValue, doc: CorsDocument)
    requires earlier != later
    requires SharedCors([map[field := earlier], map[field := later]], doc)
    ensures doc["corsRules"][0][ToCamelCase(field)] == later
    ensures !IntendedCors([map[field := earlier], map[field := later]], doc)
  {
    var first, second := map[field := earlier], map[field := later];
    var rules, key := [first, second], ToCamelCase(field);
    var m := doc["corsRules"][0];
    assert CamelKeys(second) == {key};
    assert rules[..1] == [first];
    assert key in MergedKeys(rules);
    assert LastWith(rules, key) == 1;
    assert FromRule(second, key, m[key]);
    assert m[key] == later;
    assert !FromRule(first, key, m[key]);
  }

  /** The keys a partly processed rule has contributed to the shared map so far. */
  function CamelKeysOf(rule: CorsRule, done: set<string>): set<string>
  {
    set k | k in done && k in rule :: ToCamelCase(k)
  }

  /** The shared map after the first rules and part of the current one. */
  ghost predicate PartialMerge(rules: seq<CorsRule>, rule: CorsRule, done: set<string>, m: map<string, CorsValue>)
  {
    && m.Keys == MergedKeys(rules) + CamelKeysOf(rule, done)
    && forall key :: key in m ==>
         if key in CamelKeysOf(rule, done) then FromRule(rule, key, m[key])
         else FromRule(rules[LastWith(rules, key)], key, m[key])
  }

  lemma MergeStep(rules: seq<CorsRule>, rule: CorsRule, m: map<string, CorsValue>)
    requires PartialMerge(rules, rule, rule.Keys, m)
    ensures MergeOf(rules + [rule], m)
  {
    var all := rules + [rule];
    assert all[..|all| - 1] == rules;
    assert CamelKeysOf(rule, rule.Keys) == CamelKeys(rule);
    forall key | key in m
      ensures FromRule(all[LastWith(all, key)], key, m[key])
    {
      if key !in CamelKeys(rule) {
        assert LastWith(all, key) == LastWith(rules, key);
      }
    }
  }

  /** The Go map value `cors` that every entry of the payload refers to. */
  class JsonMap {
    var entries: map<string, CorsValue>

    constructor ()
      ensures entries == map[]
    {
      entries := map[];
    }

    /**
     * The inner loop of `BucketCors`: every field of `rule`, in the map's
     * own unspecified order, is written under its camelCase name, over
     * whatever earlier rules left there.
     */
    method SetFields(ghost before: seq<CorsRule>, rule: CorsRule)
      requires MergeOf(before, entries)
      modifies this
      ensures MergeOf(before + [rule], entries)
    {
      var remaining := rule.Keys;
      assert CamelKeysOf(rule, {}) == {};
      while remaining != {}
        invariant remaining <= rule.Keys
        invariant PartialMerge(before, rule, rule.Keys - remaining, entries)
        decreases remaining
      {
        var k :| k in remaining;
        ghost var done := rule.Keys - remaining;
        PartialMergeAdd(before, rule, done, entries, k);
        entries := entries[ToCamelCase(k) := rule[k]];
        remaining := remaining - {k};
        assert rule.Keys - remaining == done + {k};
      }
      MergeStep(before, rule, entries);
    }
  }

  /**
   * The builder as evidently intended: a fresh map per rule, so entry i
   * holds rule i's camel-cased fields and nothing else.
   */
  method BuildCorsRules(rules: seq<CorsRule>) returns (doc: CorsDocument)
    ensures IntendedCors(rules, doc)
  {
    doc := map[];
    for i := 0 to |rules|
      invariant i == 0 ==> doc == map[]
      invariant i > 0 ==> doc.Keys == {"corsRules"} && |doc["corsRules"]| == i
      invariant i > 0 ==> forall j :: 0 <= j < i ==> CamelImage(rules[j], doc["corsRules"][j])
    {
      var rule := rules[i];
      var own: map<string, CorsValue> := map[];
      var remaining := rule.Keys;
      while remaining != {}
        invariant remaining <= rule.Keys
        invariant own.Keys == CamelKeysOf(rule, rule.Keys - remaining)
        invariant forall key :: key in own ==> FromRule(rule, key, own[key])
        decreases remaining
      {
        var k :| k in remaining;
        own := own[ToCamelCase(k) := rule[k]];
        remaining := remaining - {k};
      }
      assert CamelKeysOf(rule, rule.Keys) == CamelKeys(rule);
      var list := if "corsRules" in doc then doc["corsRules"] else [];
      doc := doc["corsRules" := list + [own]];
    }
  }

  // ---------------------------------------------------------------------------
  // DeleteBucket
  // ---------------------------------------------------------------------------

  /** The raw-string body of the bulk delete, whitespace as written. */
  const DELETE_ALL_BODY: string :=
    "{\n\t\t\"quiet\": true,\n\t\t\"removeAll\": true,\n\t\t\"deleteVersion\": true,\n\t\t\"tryAsync\": true\n\t}"

  /**
   * `DeleteBucket`: the bulk object delete is sent first; if it fails the
   * client panics and the bucket DELETE is never sent.
   */
  function DeleteBucketRun(cfg: Config, env: Env, n: nat, name: string): (r: Run<Outcome>)
    ensures 1 <= |r.sent| <= 2
    ensures r.sent[0] == RequestOf(cfg, POST, MountUrl(cfg, name, "delete"), Text(DELETE_ALL_BODY), [])
    ensures |r.sent| == 2 <==> Classify(env.reply(n)).Ok?
    ensures |r.sent| == 1 ==> r.value == Abort(Classify(env.reply(n)).error)
    ensures |r.sent| == 2 ==>
              && r.sent[1] == RequestOf(cfg, DELETE, MountUrl(cfg, name, ""), Text(""), [])
              && r.value == OutcomeOf(Classify(env.reply(n + 1)))
  {
    var post := Exchange(cfg, env, n, POST, MountUrl(cfg, name, "delete"), Text(DELETE_ALL_BODY), []);
    match post.value
    case Err(e) => Run(post.sent, Abort(e))
    case Ok(_) =>
      var del := Exchange(cfg, env, n + 1, DELETE, MountUrl(cfg, name, ""), Text(""), []);
      Run(post.sent + del.sent, OutcomeOf(del.value))
  }

  /** The bulk delete is addressed to the delete sub-resource, the final DELETE to the bucket itself. */
  lemma DeleteTargets(cfg: Config, env: Env, n: nat, name: string)
    ensures var r := DeleteBucketRun(cfg, env, n, name);
      && r.sent[0].verb == POST && r.sent[0].url == BaseUrl(cfg, name) + "?delete"
      && (|r.sent| == 2 ==> r.sent[1].verb == DELETE && r.sent[1].url == BaseUrl(cfg, name) && r.sent[1].body == None)
  {
  }

  // ---------------------------------------------------------------------------
  // The client
  // ---------------------------------------------------------------------------

  /**
   * The Go `S3Client` value with the requests it has sent so far. Every
   * method appends exactly the requests its `Run` function lists.
   */
  class S3Client {
    const config: Config
    const env: Env
    var log: seq<Request>

    /** The struct literal of `NewS3Client`, once a bearer token is in hand. */
    constructor (s3Url: string, region: string, bearerToken: string, env: Env)
      ensures config == Config(s3Url, region, bearerToken, PATH)
      ensures this.env == env
      ensures log == []
    {
      config := Config(s3Url, region, bearerToken, PATH);
      this.env := env;
      log := [];
    }

    method DoRequest(m: Method, reqUrl: string, body: Payload, additionalHeaders: seq<Header>) returns (r: Result<string>)
      modifies this
      ensures log == old(log) + Exchange(config, env, |old(log)|, m, reqUrl, body, additionalHeaders).sent
      ensures r == Exchange(config, env, |old(log)|, m, reqUrl, body, additionalHeaders).value
    {
      var sentBody: Option<Payload> := if body != Text("") then Some(body) else None;
      var headers := [Header("Authorization", "Bearer " + config.bearerToken),
                      Header("Content-Type", "application/json"),
                      Header("accept", "application/json")];
      for i := 0 to |additionalHeaders|
        invariant headers == AuthHeaders(config.bearerToken) + additionalHeaders[..i]
      {
        headers := headers + [additionalHeaders[i]];
      }
      assert additionalHeaders[..|additionalHeaders|] == additionalHeaders;
      var reply := env.reply(|log|);
      log := log + [Request(m, reqUrl, sentBody, headers)];
      match reply {
        case TransportFailed(e) =>
          r := Err(e);
        case Answered(status, text) =>
          if status == STATUS_OK {
            r := Ok(text);
          } else {
            r := Ok("");
          }
        case UnreadableBody(e) =>
          r := Err(e);
      }
    }

    method DoUpload(reqUrl: string, source: string) returns (o: Outcome)
      modifies this
      ensures log == old(log) + DoUploadRun(config, env, |old(log)|, reqUrl, source).sent
      ensures o == DoUploadRun(config, env, |old(log)|, reqUrl, source).value
    {
      var file := env.readFile(source);
      if file.Err? {
        return Fail(file.error);
      }
      var contentType := env.detectContentType(file.value);
      var reply := env.reply(|log|);
      log := log + [Request(PUT, reqUrl, Some(Binary(file.value)),
                            [Header("Authorization", "Bearer " + config.bearerToken),
                             Header("Content-Type", contentType)])];
      if reply.TransportFailed? {
        return Fail(reply.error);
      }
      return Pass;
    }

    method GetBucket(name: string) returns (r: Result<string>)
      modifies this
      ensures log == old(log) + GetBucketRun(config, env, |old(log)|, name).sent
      ensures r == GetBucketRun(config, env, |old(log)|, name).value
    {
      var bucketUrl := MountUrl(config, name, "max-keys=1");
      r := DoRequest(GET, bucketUrl, Text(""), []);
    }

    method CreateBucket(name: string) returns (o: Outcome)
      modifies this
      ensures log == old(log) + CreateBucketRun(config, env, |old(log)|, name).sent
      ensures o == CreateBucketRun(config, env, |old(log)|, name).value
    {
      var createBucketUrl := MountUrl(config, name, "");
      var body := CreateBody(name, config.region);
      var r := DoRequest(PUT, createBucketUrl, Text(body), []);
      o := OutcomeOf(r);
    }

    method BucketTags(bucket: string, tags: seq<Tag>) returns (o: Outcome)
      modifies this
      ensures log == old(log) + BucketTagsRun(config, env, |old(log)|, bucket, tags).sent
      ensures o == BucketTagsRun(config, env, |old(log)|, bucket, tags).value
    {
      var tagsUrl := MountUrl(config, bucket, "tagging");
      ghost var n := |log|;
      var _ := RemoveBucketTags(bucket);
      ghost var afterDelete := log;
      var tagSet := TAG_SET_OPEN;
      for i := 0 to |tags|
        invariant tagSet == TagSetPrefix(tags, i)
        invariant log == afterDelete
      {
        TagSetStep(tags, i);
        tagSet := tagSet + TagJson(tags[i]);
        if i + 1 < |tags| {
          tagSet := tagSet + ",";
        }
      }
      assert tags[..|tags|] == tags;
      tagSet := tagSet + TAG_SET_CLOSE;
      assert tagSet == TagSetBody(tags);
      var r := DoRequest(PUT, tagsUrl, Text(tagSet), []);
      o := OutcomeOf(r);
      assert |afterDelete| == n + 1;
      assert log == old(log) + RemoveBucketTagsRun(config, env, n, bucket).sent
                      + Exchange(config, env, n + 1, PUT, tagsUrl, Text(tagSet), []).sent;
    }

    method RemoveBucketTags(bucket: string) returns (o: Outcome)
      modifies this
      ensures log == old(log) + RemoveBucketTagsRun(config, env, |old(log)|, bucket).sent
      ensures o == RemoveBucketTagsRun(config, env, |old(log)|, bucket).value
    {
      var tagsUrl := MountUrl(config, bucket, "tagging");
      var r := DoRequest(DELETE, tagsUrl, Text(""), []);
      o := OutcomeOf(r);
    }

    method UploadObject(bucket: string, key: string, source: string, overwrite: bool) returns (o: Outcome)
      modifies this
      ensures log == old(log) + UploadObjectRun(config, env, |old(log)|, bucket, key, source, overwrite).sent
      ensures o == UploadObjectRun(config, env, |old(log)|, bucket, key, source, overwrite).value
    {
      var objectUrl := MountUrl(config, bucket + "/" + key, if overwrite then "overwrite=true" else "overwrite=false");
      o := DoUpload(objectUrl, source);
    }

    method BucketAcls(bucket: string, setDefault: bool, cannedAcl: string, acls: seq<AclEntry>) returns (o: Outcome)
      modifies this
      ensures log == old(log) + BucketAclsRun(config, env, |old(log)|, bucket, setDefault, cannedAcl, acls).sent
      ensures o == BucketAclsRun(config, env, |old(log)|, bucket, setDefault, cannedAcl, acls).value
    {
      var aclsUrl := MountUrl(config, bucket, "acl");
      var bucketObj := GetBucketObject(bucket);
      if bucketObj.FetchAborted? {
        return Abort(bucketObj.reason);
      }
      var cannedAclHeader: seq<Header> := [];
      if |cannedAcl| > 0 && cannedAcl != "" {
        cannedAclHeader := [Header("X-Amz-Acl", cannedAcl)];
      }
      if setDefault {
        o := DefaultAcl(bucket, if bucketObj.Found? then Some(bucketObj.bucket) else None, cannedAclHeader);
        return;
      }
      if bucketObj.NilBucket? {
        // the loop (for a TENANT entry) or the owner grant dereferences the nil bucket
        return Abort(NIL_DEREFERENCE);
      }
      var b := bucketObj.bucket;
      var grants := UserGrantList(acls, b);
      grants := grants + [Grant(GranteeId(b.owner.id), FULL_CONTROL)];
      assert grants == ExplicitGrants(acls, b);
      assert cannedAclHeader == CannedAclHeader(cannedAcl);
      var r := DoRequest(PUT, aclsUrl, AclDocument(b.owner, grants), cannedAclHeader);
      o := OutcomeOf(r);
    }

    method DefaultAcl(bucketName: string, bucket: Option<Bucket>, cannedAclHeader: seq<Header>) returns (o: Outcome)
      modifies this
      ensures log == old(log) + DefaultAclRun(config, env, |old(log)|, bucketName, bucket, cannedAclHeader).sent
      ensures o == DefaultAclRun(config, env, |old(log)|, bucketName, bucket, cannedAclHeader).value
    {
      var aclsUrl := MountUrl(config, bucketName, "acl");
      if bucket == None {
        return Abort(NIL_DEREFERENCE);
      }
      var grants := [Grant(GranteeId(bucket.value.owner.id), FULL_CONTROL)];
      var r := DoRequest(PUT, aclsUrl, AclDocument(bucket.value.owner, grants), cannedAclHeader);
      o := OutcomeOf(r);
    }

    method GetBucketObject(name: string) returns (f: Fetched)
      modifies this
      ensures log == old(log) + GetBucketObjectRun(config, env, |old(log)|, name).sent
      ensures f == GetBucketObjectRun(config, env, |old(log)|, name).value
    {
      var bucketStr := GetBucket(name);
      if bucketStr.Err? {
        return FetchAborted(bucketStr.error);
      }
      match env.decodeBucket(bucketStr.value) {
        case DecodeFailed(e) => f := FetchAborted(e);
        case DecodedNull => f := NilBucket;
        case DecodedBucket(b) => f := Found(b);
      }
    }

    /**
     * `BucketCors`: every rule's fields are copied, camel-cased, into the one
     * shared `cors` map, and a reference to that map is appended per rule.
     */
    method BucketCors(bucket: string, rules: seq<CorsRule>) returns (o: Outcome)
      modifies this
      ensures |log| == |old(log)| + 1 && log[..|old(log)|] == old(log)
      ensures var req := log[|old(log)|];
        && req.verb == PUT
        && req.url == MountUrl(config, bucket, "cors")
        && req.headers == AuthHeaders(config.bearerToken)
        && req.body.Some? && req.body.value.CorsRules?
        && SharedCors(rules, req.body.value.doc)
      ensures o == OutcomeOf(Classify(env.reply(|old(log)|)))
    {
      var corsUrl := MountUrl(config, bucket, "cors");
      var cors := new JsonMap();
      var payload: map<string, seq<JsonMap>> := map[];
      for i := 0 to |rules|
        modifies cors
        invariant i == 0 ==> payload == map[]
        invariant i > 0 ==> payload.Keys == {"corsRules"} && |payload["corsRules"]| == i
        invariant i > 0 ==> forall j :: 0 <= j < i ==> payload["corsRules"][j] == cors
        invariant MergeOf(rules[..i], cors.entries)
      {
        cors.SetFields(rules[..i], rules[i]);
        assert rules[..i] + [rules[i]] == rules[..i + 1];
        var list := if "corsRules" in payload then payload["corsRules"] else [];
        payload := payload["corsRules" := list + [cors]];
      }
      assert rules[..|rules|] == rules;
      var doc: CorsDocument := map[];
      if "corsRules" in payload {
        var list := payload["corsRules"];
        doc := map["corsRules" := seq(|list|, j requires 0 <= j < |list| reads list => list[j].entries)];
      }
      var r := DoRequest(PUT, corsUrl, CorsRules(doc), []);
      o := OutcomeOf(r);
    }

    method DeleteBucket(name: string) returns (o: Outcome)
      modifies this
      ensures log == old(log) + DeleteBucketRun(config, env, |old(log)|, name).sent
      ensures o == DeleteBucketRun(config, env, |old(log)|, name).value
    {
      var deleteUrl := MountUrl(config, name, "");
      var r := DoRequest(POST, MountUrl(config, name, "delete"), Text(DELETE_ALL_BODY), []);
      if r.Err? {
        return Abort(r.error);
      }
      var r2 := DoRequest(DELETE, deleteUrl, Text(""), []);
      o := OutcomeOf(r2);
    }
  }

  /** Adding one more field of the current rule keeps the partial merge. */
  lemma PartialMergeAdd(rules: seq<CorsRule>, rule: CorsRule, done: set<string>, m: map<string, CorsValue>, k: string)
    requires k in rule
    requires PartialMerge(rules, rule, done, m)
    ensures PartialMerge(rules, rule, done + {k}, m[ToCamelCase(k) := rule[k]])
  {
    var ck := ToCamelCase(k);
    var m' := m[ck := rule[k]];
    var before, after := CamelKeysOf(rule, done), CamelKeysOf(rule, done + {k});
    assert after == before + {ck} by {
      forall x | x in after ensures x in before + {ck} {
        var y :| y in done + {k} && y in rule && ToCamelCase(y) == x;
        if y != k {
          assert y in done;
        }
      }
    }
    assert m'.Keys == MergedKeys(rules) + after;
    forall key | key in m'
      ensures if key in after then FromRule(rule, key, m'[key])
              else FromRule(rules[LastWith(rules, key)], key, m'[key])
    {
      if key == ck {
        assert k in rule && ToCamelCase(k) == key && rule[k] == m'[key];
      } else {
        assert m'[key] == m[key];
        assert key in after <==> key in before;
      }
    }
  }

}
