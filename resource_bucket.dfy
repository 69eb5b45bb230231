/**
 * The bucket resource of the Terraform provider: the schema validators for
 * ACL users, ACL permissions and canned ACLs, and the create and update
 * handlers, which drive the S3 client in a fixed order and turn its errors
 * into Terraform diagnostics. Read and delete are no-ops.
 */
module ResourceBucket {
  import opened Wrappers
  import opened Types
  import opened S3

  // ---------------------------------------------------------------------------
  // Diagnostics
  // ---------------------------------------------------------------------------

  datatype Severity = Error | Warning

  /** One step of an attribute path (`acl`, `0`, `user`). */
  datatype PathStep = GetAttr(name: string) | IndexInt(index: int) | IndexString(key: string)

  type AttributePath = seq<PathStep>

  datatype Diagnostic = Diagnostic(severity: Severity, summary: string, detail: string, attributePath: Option<AttributePath>)

  /**
   * How a handler ends: with its diagnostics, or with a panic raised inside
   * the client (a failed bucket fetch or a nil bucket), which takes the
   * provider down instead of returning.
   */
  datatype Completion = Returned(diags: seq<Diagnostic>) | Panicked(reason: string)

  /** `%q` of a string: the value between double quotes. */
  function Quoted(value: string): (q: string)
    ensures |q| == |value| + 2 && q[0] == '"' && q[|q| - 1] == '"'
    ensures q[1..|q| - 1] == value
  {
    "\"" + value + "\""
  }

  // ---------------------------------------------------------------------------
  // Schema validators
  // ---------------------------------------------------------------------------

  const ACL_PERMISSIONS: set<string> := {"FULL_CONTROL", "READ", "WRITE", "READ_ACP", "WRITE_ACP"}
  const ACL_USERS: set<string> := {"TENANT", "AUTHENTICATED", "PUBLIC", "SYSTEM-LOGGER"}
  const CANNED_ACLS: set<string> := {"private", "public-read", "public-read-write", "authenticated-read"}

  const PERMISSION_SUMMARY: string := "Wrong value. Valid Values: FULL_CONTROL | READ | WRITE | READ_ACP | WRITE_ACP"
  const USER_SUMMARY: string := "Wrong value. Valid Values: TENANT | AUTHENTICATED | PUBLIC | SYSTEM-LOGGER"
  const CANNED_SUMMARY: string := "Wrong value. Valid Values: private | public-read | public-read-write | authenticated-read"

  /** The one diagnostic a validator reports: an error at the attribute's path. */
  function Rejection(summary: string, detail: string, path: AttributePath): Diagnostic
  {
    Diagnostic(Error, summary, detail, Some(path))
  }

  /** `validateAclPermission`: the five S3 grant permissions, nothing else. */
  function ValidateAclPermission(value: string, path: AttributePath): (diags: seq<Diagnostic>)
    ensures diags == [] <==> value in ACL_PERMISSIONS
    ensures diags != [] ==>
              diags == [Rejection(PERMISSION_SUMMARY, Quoted(value) + " is not a valid ACL Permission", path)]
  {
    if value != "FULL_CONTROL" && value != "READ" && value != "WRITE" && value != "READ_ACP" && value != "WRITE_ACP" then
      [Rejection(PERMISSION_SUMMARY, Quoted(value) + " is not a valid ACL Permission", path)]
    else
      []
  }

  /** `validateAclUser`: the four user kinds the grant builder knows. */
  function ValidateAclUser(value: string, path: AttributePath): (diags: seq<Diagnostic>)
    ensures diags == [] <==> value in ACL_USERS
    ensures diags != [] ==>
              diags == [Rejection(USER_SUMMARY, Quoted(value) + " is not a valid ACL User", path)]
  {
    if value != "TENANT" && value != "AUTHENTICATED" && value != "PUBLIC" && value != "SYSTEM-LOGGER" then
      [Rejection(USER_SUMMARY, Quoted(value) + " is not a valid ACL User", path)]
    else
      []
  }

  /** `validateCannedAcl`: the four canned ACL values. */
  function ValidateCannedAcl(value: string, path: AttributePath): (diags: seq<Diagnostic>)
    ensures diags == [] <==> value in CANNED_ACLS
    ensures diags != [] ==>
              diags == [Rejection(CANNED_SUMMARY, Quoted(value) + " is not x-amz-acl valid value", path)]
  {
    if value != "private" && value != "public-read" && value != "public-read-write" && value != "authenticated-read" then
      [Rejection(CANNED_SUMMARY, Quoted(value) + " is not x-amz-acl valid value", path)]
    else
      []
  }

  /**
   * The user validator and the grant builder agree: a user passes validation
   * exactly when the builder gives it a grantee.
   */
  lemma ValidUserHasGrantee(user: string, path: AttributePath, bucket: Bucket)
    ensures ValidateAclUser(user, path) == [] <==> GranteeFor(user, bucket) != NoGrantee
  {
  }

  /** A canned value that passes validation is sent as the `X-Amz-Acl` header. */
  lemma ValidCannedAclIsSent(value: string, path: AttributePath)
    requires ValidateCannedAcl(value, path) == []
    ensures CannedAclHeader(value) == [Header("X-Amz-Acl", value)]
  {
  }

  // ---------------------------------------------------------------------------
  // Create and update
  // ---------------------------------------------------------------------------

  const CREATE_SUMMARY: string := "Error creating bucket"
  const ACL_SUMMARY: string := "Error editing bucket ACLs"
  const TAGS_SUMMARY: string := "Error editing bucket TAGs"

  /** The diagnostic a handler returns for a client error: `<summary>: <error>`. */
  function ClientError(summary: string, err: string): (d: Diagnostic)
    ensures d.severity == Error && d.attributePath == None
    ensures d.detail == summary + ": " + err
  {
    Diagnostic(Error, summary, summary + ": " + err, None)
  }

  /**
   * The one `BucketAcls` call of update: explicit mode with the entries when
   * there are any, default mode with none otherwise; `canned_acl` is passed
   * on as it is in both.
   */
  function AclStepRun(cfg: Config, env: Env, n: nat, name: string, cannedAcl: string, acls: seq<AclEntry>): Run<Outcome>
  {
    BucketAclsRun(cfg, env, n, name, acls == [], cannedAcl, acls)
  }

  /** `resourceBucketUpdate`: the ACL step, then the tag step when there are tags. */
  function UpdateRun(cfg: Config, env: Env, n: nat, name: string, cannedAcl: string, tags: seq<Tag>, acls: seq<AclEntry>): Run<Completion>
  {
    var acl := AclStepRun(cfg, env, n, name, cannedAcl, acls);
    match acl.value
    case Abort(reason) => Run(acl.sent, Panicked(reason))
    case Fail(err) => Run(acl.sent, Returned([ClientError(ACL_SUMMARY, err)]))
    case Pass =>
      if |tags| > 0 then
        var tagged := BucketTagsRun(cfg, env, n + |acl.sent|, name, tags);
        if tagged.value.Fail? then
          Run(acl.sent + tagged.sent, Returned([ClientError(TAGS_SUMMARY, tagged.value.error)]))
        else
          Run(acl.sent + tagged.sent, Returned([]))
      else
        Run(acl.sent, Returned([]))
  }

  /** `resourceBucketCreate`: create the bucket, then run update; read does nothing. */
  function CreateRun(cfg: Config, env: Env, n: nat, name: string, cannedAcl: string, tags: seq<Tag>, acls: seq<AclEntry>): (r: Run<Completion>)
    ensures |r.sent| >= 1
    ensures r.sent[0] == RequestOf(cfg, PUT, MountUrl(cfg, name, ""), Text(CreateBody(name, cfg.region)), [])
  {
    var created := CreateBucketRun(cfg, env, n, name);
    if created.value.Fail? then
      Run(created.sent, Returned([ClientError(CREATE_SUMMARY, created.value.error)]))
    else
      var updated := UpdateRun(cfg, env, n + |created.sent|, name, cannedAcl, tags, acls);
      Run(created.sent + updated.sent, updated.value)
  }

  /**
   * Update makes exactly one ACL call first, and sends anything after it
   * exactly when that call passed and there are tags.
   */
  lemma UpdateSendsTagsIff(cfg: Config, env: Env, n: nat, name: string, cannedAcl: string, tags: seq<Tag>, acls: seq<AclEntry>)
    ensures var acl := AclStepRun(cfg, env, n, name, cannedAcl, acls);
            var r := UpdateRun(cfg, env, n, name, cannedAcl, tags, acls);
            && acl == BucketAclsRun(cfg, env, n, name, acls == [], cannedAcl, acls)
            && acl.sent <= r.sent
            && (|r.sent| > |acl.sent| <==> acl.value.Pass? && tags != [])
  {
  }

  /**
   * Update always starts by fetching the bucket and makes exactly one ACL
   * call; it sends the ACL PUT exactly when the bucket is found, and the PUT
   * carries the grants of the mode the entries select and the canned header.
   */
  lemma UpdateAclStep(cfg: Config, env: Env, n: nat, name: string, cannedAcl: string, tags: seq<Tag>, acls: seq<AclEntry>)
    ensures var r := UpdateRun(cfg, env, n, name, cannedAcl, tags, acls);
            && r.sent[0] == RequestOf(cfg, GET, MountUrl(cfg, name, "max-keys=1"), Text(""), [])
            && (GetBucketObjectRun(cfg, env, n, name).value.Found? ==>
                  var b := GetBucketObjectRun(cfg, env, n, name).value.bucket;
                  r.sent[1] == RequestOf(cfg, PUT, MountUrl(cfg, name, "acl"),
                                         AclDocument(b.owner, if acls == [] then DefaultGrants(b) else ExplicitGrants(acls, b)),
                                         CannedAclHeader(cannedAcl)))
            && (!GetBucketObjectRun(cfg, env, n, name).value.Found? ==>
                  r.sent == [r.sent[0]] && r.value.Panicked?)
  {
  }

  /**
   * Nothing rejects a canned ACL together with explicit entries: the ACL PUT
   * carries the explicit grants and the `X-Amz-Acl` header both.
   */
  lemma CannedAndExplicitSentTogether(cfg: Config, env: Env, n: nat, name: string, cannedAcl: string, tags: seq<Tag>, acls: seq<AclEntry>)
    requires cannedAcl != "" && acls != []
    requires GetBucketObjectRun(cfg, env, n, name).value.Found?
    ensures var r := UpdateRun(cfg, env, n, name, cannedAcl, tags, acls);
            var b := GetBucketObjectRun(cfg, env, n, name).value.bucket;
            && |r.sent| >= 2
            && r.sent[1].body == Some(AclDocument(b.owner, ExplicitGrants(acls, b)))
            && Header("X-Amz-Acl", cannedAcl) in r.sent[1].headers
            && |ExplicitGrants(acls, b)| == |acls| + 1
  {
    var r := UpdateRun(cfg, env, n, name, cannedAcl, tags, acls);
    UpdateAclStep(cfg, env, n, name, cannedAcl, tags, acls);
    ExplicitGrantsShape(acls, GetBucketObjectRun(cfg, env, n, name).value.bucket);
    assert r.sent[1].headers[3] == Header("X-Amz-Acl", cannedAcl);
  }

  /**
   * An ACL error ends update with one error diagnostic carrying the client's
   * message; the tags are not touched.
   */
  lemma AclFailureSkipsTags(cfg: Config, env: Env, n: nat, name: string, cannedAcl: string, tags: seq<Tag>, acls: seq<AclEntry>)
    requires AclStepRun(cfg, env, n, name, cannedAcl, acls).value.Fail?
    ensures var acl := AclStepRun(cfg, env, n, name, cannedAcl, acls);
            var r := UpdateRun(cfg, env, n, name, cannedAcl, tags, acls);
            && r.sent == acl.sent
            && r.value.Returned? && |r.value.diags| == 1
            && r.value.diags[0].severity == Error
            && r.value.diags[0].summary == ACL_SUMMARY
            && r.value.diags[0].detail == ACL_SUMMARY + ": " + acl.value.error
  {
  }

  /**
   * After a successful ACL step, a non-empty tag list replaces the bucket's
   * tags: a DELETE on the tagging sub-resource, then a PUT whose document
   * lists exactly the new tags, whatever tags the bucket had before.
   */
  lemma TagsReplacedAfterAcl(cfg: Config, env: Env, n: nat, name: string, cannedAcl: string, tags: seq<Tag>, acls: seq<AclEntry>)
    requires AclStepRun(cfg, env, n, name, cannedAcl, acls).value.Pass?
    requires tags != []
    requires forall i :: 0 <= i < |tags| ==> PlainTag(tags[i])
    ensures var k := |AclStepRun(cfg, env, n, name, cannedAcl, acls).sent|;
            var r := UpdateRun(cfg, env, n, name, cannedAcl, tags, acls);
            && |r.sent| == k + 2
            && r.sent[k] == RequestOf(cfg, DELETE, MountUrl(cfg, name, "tagging"), Text(""), [])
            && r.sent[k + 1].verb == PUT && r.sent[k + 1].url == MountUrl(cfg, name, "tagging")
            && r.sent[k + 1].body.Some? && r.sent[k + 1].body.value.Text?
            && ParseTagSet(r.sent[k + 1].body.value.text) == Some(tags)
  {
    var acl := AclStepRun(cfg, env, n, name, cannedAcl, acls);
    var tagged := BucketTagsRun(cfg, env, n + |acl.sent|, name, tags);
    var r := UpdateRun(cfg, env, n, name, cannedAcl, tags, acls);
    assert r.sent == acl.sent + tagged.sent;
    TagSetBodyRoundTrip(tags);
  }

  /**
   * Update returns at most one diagnostic, always an error; with no tags and
   * a successful ACL step it returns none.
   */
  lemma UpdateDiagnostics(cfg: Config, env: Env, n: nat, name: string, cannedAcl: string, tags: seq<Tag>, acls: seq<AclEntry>)
    ensures var r := UpdateRun(cfg, env, n, name, cannedAcl, tags, acls);
            r.value.Returned? ==> |r.value.diags| <= 1 && forall d :: d in r.value.diags ==> d.severity == Error
    ensures AclStepRun(cfg, env, n, name, cannedAcl, acls).value.Pass? && tags == [] ==>
              UpdateRun(cfg, env, n, name, cannedAcl, tags, acls).value == Returned([])
  {
  }

  /**
   * After a passing ACL step with tags, update's result is the tag PUT's:
   * one `Error editing bucket TAGs` diagnostic when it failed, none
   * otherwise, whatever the DELETE before it got.
   */
  lemma UpdateAfterTags(cfg: Config, env: Env, n: nat, name: string, cannedAcl: string, tags: seq<Tag>, acls: seq<AclEntry>)
    requires AclStepRun(cfg, env, n, name, cannedAcl, acls).value.Pass?
    requires tags != []
    ensures var k := |AclStepRun(cfg, env, n, name, cannedAcl, acls).sent|;
            var put := Classify(env.reply(n + k + 1));
            UpdateRun(cfg, env, n, name, cannedAcl, tags, acls).value ==
              if put.Err? then Returned([ClientError(TAGS_SUMMARY, put.error)]) else Returned([])
  {
  }

  /** A failed create returns one error diagnostic and runs neither update nor read. */
  lemma CreateFailureStops(cfg: Config, env: Env, n: nat, name: string, cannedAcl: string, tags: seq<Tag>, acls: seq<AclEntry>)
    requires !env.reply(n).Answered?
    ensures var r := CreateRun(cfg, env, n, name, cannedAcl, tags, acls);
            && |r.sent| == 1
            && r.value == Returned([ClientError(CREATE_SUMMARY, Classify(env.reply(n)).error)])
  {
  }

  /**
   * Any answer to the create request, whatever its status, counts as
   * success: update follows and its result is create's result.
   */
  lemma CreateThenUpdate(cfg: Config, env: Env, n: nat, name: string, cannedAcl: string, tags: seq<Tag>, acls: seq<AclEntry>)
    requires env.reply(n).Answered?
    ensures var r := CreateRun(cfg, env, n, name, cannedAcl, tags, acls);
            var u := UpdateRun(cfg, env, n + 1, name, cannedAcl, tags, acls);
            && r.sent == [r.sent[0]] + u.sent
            && r.value == u.value
  {
  }

  /**
   * Creating a bucket with no ACL entries and no tags: the create PUT, the
   * bucket fetch, then one ACL PUT granting the owner FULL_CONTROL only,
   * with no canned header when `canned_acl` is empty.
   */
  lemma CreatePlainBucket(cfg: Config, env: Env, n: nat, name: string, body: string, b: Bucket)
    requires env.reply(n).Answered?
    requires env.reply(n + 1) == Answered(STATUS_OK, body)
    requires env.decodeBucket(body) == DecodedBucket(b)
    ensures var r := CreateRun(cfg, env, n, name, "", [], []);
            && |r.sent| == 3
            && r.sent[1].verb == GET
            && r.sent[2] == RequestOf(cfg, PUT, MountUrl(cfg, name, "acl"),
                                      AclDocument(b.owner, [Grant(GranteeId(b.owner.id), FULL_CONTROL)]), [])
            && (r.value == Returned([]) <==> env.reply(n + 2).Answered?)
  {
    CreateThenUpdate(cfg, env, n, name, "", [], []);
    UpdateAclStep(cfg, env, n + 1, name, "", [], []);
  }

  // ---------------------------------------------------------------------------
  // The resource handlers
  // ---------------------------------------------------------------------------

  /** The resource's configuration as the handlers read it, and its id. */
  class ResourceData {
    var id: string
    const name: string
    const cannedAcl: string
    const tags: seq<Tag>
    const acls: seq<AclEntry>

    constructor (name: string, cannedAcl: string, tags: seq<Tag>, acls: seq<AclEntry>)
      ensures id == "" && this.name == name && this.cannedAcl == cannedAcl
      ensures this.tags == tags && this.acls == acls
    {
      id := "";
      this.name := name;
      this.cannedAcl := cannedAcl;
      this.tags := tags;
      this.acls := acls;
    }
  }

  /** The ACL step of update: one `BucketAcls` call, explicit or default. */
  method UpdateAcls(client: S3Client, d: ResourceData) returns (err: Outcome)
    modifies client
    ensures client.log == old(client.log) + AclStepRun(client.config, client.env, |old(client.log)|, d.name, d.cannedAcl, d.acls).sent
    ensures err == AclStepRun(client.config, client.env, |old(client.log)|, d.name, d.cannedAcl, d.acls).value
  {
    if |d.acls| > 0 {
      err := client.BucketAcls(d.name, false, d.cannedAcl, d.acls);
    } else {
      err := client.BucketAcls(d.name, true, d.cannedAcl, []);
    }
  }

  method ResourceBucketUpdate(client: S3Client, d: ResourceData) returns (c: Completion)
    modifies client
    ensures client.log == old(client.log) + UpdateRun(client.config, client.env, |old(client.log)|, d.name, d.cannedAcl, d.tags, d.acls).sent
    ensures c == UpdateRun(client.config, client.env, |old(client.log)|, d.name, d.cannedAcl, d.tags, d.acls).value
  {
    ghost var n := |client.log|;
    ghost var acl := AclStepRun(client.config, client.env, n, d.name, d.cannedAcl, d.acls);
    ghost var r := UpdateRun(client.config, client.env, n, d.name, d.cannedAcl, d.tags, d.acls);
    var err := UpdateAcls(client, d);
    if err.Abort? {
      c := Panicked(err.reason);
      assert r == Run(acl.sent, c);
    } else if err.Fail? {
      c := Returned([ClientError(ACL_SUMMARY, err.error)]);
      assert r == Run(acl.sent, c);
    } else if |d.tags| > 0 {
      ghost var k := |client.log|;
      assert k == n + |acl.sent|;
      ghost var tagged := BucketTagsRun(client.config, client.env, k, d.name, d.tags);
      err := client.BucketTags(d.name, d.tags);
      assert client.log == old(client.log) + (acl.sent + tagged.sent);
      if err.Fail? {
        c := Returned([ClientError(TAGS_SUMMARY, err.error)]);
      } else {
        c := Returned([]);
      }
      assert r == Run(acl.sent + tagged.sent, c);
    } else {
      c := Returned([]);
      assert r == Run(acl.sent, c);
    }
  }

  /** The id is set before the bucket is created, so it is set even when creation fails. */
  method ResourceBucketCreate(client: S3Client, d: ResourceData, newId: string) returns (c: Completion)
    modifies client, d
    ensures d.id == newId
    ensures client.log == old(client.log) + CreateRun(client.config, client.env, |old(client.log)|, d.name, d.cannedAcl, d.tags, d.acls).sent
    ensures c == CreateRun(client.config, client.env, |old(client.log)|, d.name, d.cannedAcl, d.tags, d.acls).value
  {
    ghost var log0 := client.log;
    ghost var n := |log0|;
    ghost var created := CreateBucketRun(client.config, client.env, n, d.name);
    CreateRunCases(client.config, client.env, n, d.name, d.cannedAcl, d.tags, d.acls);
    d.id := newId;
    var err := client.CreateBucket(d.name);
    if err.Fail? {
      c := Returned([ClientError(CREATE_SUMMARY, err.error)]);
    } else {
      ghost var log1 := client.log;
      assert |log1| == n + |created.sent|;
      ghost var updated := UpdateRun(client.config, client.env, |log1|, d.name, d.cannedAcl, d.tags, d.acls);
      c := ResourceBucketUpdate(client, d);
      AppendAssoc(log0, created.sent, updated.sent);
      var _ := ResourceBucketRead(client, d);
    }
  }

  lemma AppendAssoc<T>(a: seq<T>, b: seq<T>, c: seq<T>)
    ensures (a + b) + c == a + (b + c)
  {
  }

  /** The two ways create can go: it stops after a failed PUT, or runs update right after it. */
  lemma CreateRunCases(cfg: Config, env: Env, n: nat, name: string, cannedAcl: string, tags: seq<Tag>, acls: seq<AclEntry>)
    ensures var created := CreateBucketRun(cfg, env, n, name);
            var r := CreateRun(cfg, env, n, name, cannedAcl, tags, acls);
            && (created.value.Fail? ==> r == Run(created.sent, Returned([ClientError(CREATE_SUMMARY, created.value.error)])))
            && (!created.value.Fail? ==>
                  var updated := UpdateRun(cfg, env, n + |created.sent|, name, cannedAcl, tags, acls);
                  r == Run(created.sent + updated.sent, updated.value))
  {
  }

  /** Read only logs the id: no request, no diagnostic. */
  method ResourceBucketRead(client: S3Client, d: ResourceData) returns (diags: seq<Diagnostic>)
    ensures diags == []
  {
    diags := [];
  }

  /** Delete only logs the id: the bucket is not deleted and no diagnostic is returned. */
  method ResourceBucketDelete(client: S3Client, d: ResourceData) returns (diags: seq<Diagnostic>)
    ensures diags == []
  {
    diags := [];
  }
}
