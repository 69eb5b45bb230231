# Bucket resource and S3 client of the VCD object-storage Terraform provider

This project models two parts of the provider:

- The object-storage client in `pkg/s3_client.go`. It builds URLs, sends requests and classifies their replies. It creates, tags, ACLs, CORS-configures, fills and deletes buckets.
- The bucket resource in `objectstorage/resource_bucket.go`. It holds the schema validators and the create, read, update and delete handlers.

The network and the machine are not modelled. They are replaced by an environment of oracles (`S3.Env`):

- `reply(n)`: the reply to the n-th request the client sends;
- `decodeBucket`: `json.Unmarshal` into a `*Bucket`;
- `readFile`: `os.ReadFile`;
- `detectContentType`: `http.DetectContentType`.

Each client operation is given twice:

- a pure function `XRun(cfg, env, n, …)` that says which requests go out, in order, and what the operation returns. `doRequest`'s function is `Exchange`;
- a method of the class `S3Client`, which keeps the requests sent so far in its field `log`. Each method is proved to append exactly `XRun(…).sent` and to return `XRun(…).value`.

`BucketCors` is the exception. It has no `Run` function, because the order of a rule's fields is the map's own. Its method is specified by the relation `SharedCors` between the rules and the document sent.

The properties are lemmas about the `Run` functions. `log.Panicf` and a nil-pointer dereference are modelled as `Abort` (the client) or `Panicked` (a handler): no further request is sent.

Modules:

- `Wrappers`: `Option`, `Result`.
- `Types`: the `Bucket` and `Owner` records.
- `S3`: the client.
- `ResourceBucket`: the resource.

Where the provider's documented behaviour and its code differ, the model follows the code:

- A `canned_acl` together with explicit `acl` entries is not rejected. Both are sent on the same ACL PUT (`ResourceBucket.CannedAndExplicitSentTogether`).
- Create fetches the bucket (`GET ?max-keys=1`) between the create PUT and the ACL PUT (`ResourceBucket.CreatePlainBucket`).

## Model

| member | source | states |
|---|---|---|
| S3.MountUrl | pkg/s3_client.go:53-58 | the model of `mountUrl`: `https://<host>/<path>/<resource>`, then `?<query>` when the query is non-empty; `MountUrlShape` and `MountUrlSplits` state its properties |
| S3.MountUrlShape | pkg/s3_client.go:53-58 | the URL is `https://<host>/<path>/<resource>`, followed by `?<query>` exactly when the query is non-empty |
| S3.SplitQueryAfter | pkg/s3_client.go:53-58 | splitting at the first `?` is unaffected by a prefix that holds no `?` |
| S3.MountUrlSplits | pkg/s3_client.go:53-58 | when host, path and resource hold no `?`, the URL splits back into its base and exactly the query that was given (none for an empty query) |
| S3.RequestOf | pkg/s3_client.go:60-78 | the model of the request `doRequest` builds: the verb, the URL, no body for an empty text, the three fixed headers and then the caller's; `RequestHeaders` states its shape |
| S3.Exchange | pkg/s3_client.go:60-98 | one `doRequest` call sends exactly its one request and returns the reply's classification |
| S3.RequestHeaders | pkg/s3_client.go:60-78 | every request carries `Authorization: Bearer <token>`, `Content-Type` and `accept` JSON, then the caller's headers in order; an empty body is sent as no body |
| S3.Classify | pkg/s3_client.go:80-97 | a send or read failure is an error; status 200 yields the body; any other status yields an empty text and no error; a non-empty result comes only from a 200 answer with that body |
| S3.EmptyResultIsAmbiguous | pkg/s3_client.go:87-97 | a rejected request gives the same result as a 200 answer with an empty body |
| S3.OutcomeOf | pkg/s3_client.go:144-146 | a client call passes exactly when `doRequest` returned no error, and otherwise fails with that error |
| S3.GetBucketRun | pkg/s3_client.go:131-137 | one GET, with no body, on `<base>?max-keys=1` |
| S3.GetBucketObjectRun | pkg/s3_client.go:308-323 | the fetch's request only; a failed fetch aborts with its error; after a successful fetch, a decoded bucket is returned as found, `null` gives the nil bucket and a decoding error aborts with that error; a non-200 status (empty text) aborts |
| S3.CreateBody | pkg/s3_client.go:142 | the model of the hand-formatted create body: `{"name":"<name>", "locationConstraint":"<region>"}` |
| S3.CreateBucketRun | pkg/s3_client.go:139-147 | one PUT on the bare bucket URL with the name and region body; never aborts; the outcome is the reply's classification |
| S3.TagJson | pkg/s3_client.go:157 | the model of one tag object, `{"key":"<name>","value":"<value>"}`, with no escaping; `ParseTagJson` reads it back |
| S3.Join | pkg/s3_client.go:155-161 | the model of the comma placement of the tag loop; `JoinSnoc` states it |
| S3.TagSetBody | pkg/s3_client.go:154-162 | the model of the tag-set document; `TagSetBodyRoundTrip` reads it back as exactly its tags |
| S3.TagJsons | pkg/s3_client.go:155-161 | one `{"key","value"}` object per tag, in order |
| S3.JoinSnoc | pkg/s3_client.go:158-160 | a comma is placed only between consecutive tag objects |
| S3.TagSetStep | pkg/s3_client.go:155-161 | one loop step appends tag i and its separator, as in the body built after i+1 tags |
| S3.ParseTagJson | pkg/s3_client.go:157 | a tag object with a plain name and value reads back as that tag |
| S3.ParseTagItemsJoin | pkg/s3_client.go:155-162 | the comma-joined tag objects plus the closing text read back as the tag list |
| S3.ParseTagItemsCons | pkg/s3_client.go:155-160 | reading a tag object, a comma and more yields that tag in front of what the rest reads as |
| S3.TagSetBodyRoundTrip | pkg/s3_client.go:154-162 | the tag-set document reads back as exactly the tags it was built from |
| S3.ParseTagStopsAtQuote | pkg/s3_client.go:157 | a value holding an unescaped `"` ends the value early and the object no longer reads |
| S3.QuoteInValueBreaksDocument | pkg/s3_client.go:157 | a tag value holding a `"` yields a document that does not read back as its tags |
| S3.RemoveBucketTagsRun | pkg/s3_client.go:169-174 | one DELETE, with no body, on `<base>?tagging` |
| S3.BucketTagsRun | pkg/s3_client.go:149-167 | exactly two requests: the DELETE on `?tagging`, then the PUT of the tag-set document; the delete's reply is ignored and the outcome is the PUT's |
| S3.BucketTagsReplaceAll | pkg/s3_client.go:149-167 | the same tags send the same requests whatever came before; only the PUT's reply decides the outcome |
| S3.DoUploadRun | pkg/s3_client.go:100-129 | an unreadable file fails with no request; otherwise one PUT of the file's bytes with the token and the sniffed content type, passing exactly when the request was sent, whatever the status; never aborts |
| S3.UploadObjectRun | pkg/s3_client.go:176-179 | the upload goes to `<base of bucket/key>?overwrite=true` or `?overwrite=false` |
| S3.UploadDependsOnContentsOnly | pkg/s3_client.go:176-179 | two sources with the same contents give the same upload |
| S3.GranteeFor | pkg/s3_client.go:209-218 | TENANT gives the id made of the tenant and a trailing vertical bar; AUTHENTICATED, PUBLIC and SYSTEM-LOGGER give their group URIs; any other user gives an empty grantee |
| S3.UserGrants | pkg/s3_client.go:202-223 | the model of the per-entry grants; `UserGrantsAt` states them index by index |
| S3.UserGrantsAt | pkg/s3_client.go:202-223 | one grant per ACL entry, in order: that entry's grantee and permission |
| S3.UserGrantList | pkg/s3_client.go:199-223 | the grant loop builds exactly the per-entry grants |
| S3.DefaultGrants | pkg/s3_client.go:288-290 | the default grant list is only the owner's FULL_CONTROL |
| S3.ExplicitGrants | pkg/s3_client.go:199-225 | the model of the explicit grant list; `ExplicitGrantsShape` states it |
| S3.ExplicitGrantsShape | pkg/s3_client.go:199-225 | the explicit grants are the per-entry grants, followed by the owner's FULL_CONTROL last |
| S3.CannedAclHeader | pkg/s3_client.go:190-193 | `X-Amz-Acl: <canned>` exactly when the canned ACL is non-empty; no header otherwise |
| S3.AclPutRun | pkg/s3_client.go:229-244 | one PUT on `?acl` of the owner and grants document, with the canned header; the outcome is its reply's |
| S3.DefaultAclRun | pkg/s3_client.go:285-306 | a nil bucket dereference aborts with no request; otherwise the ACL PUT with the owner's FULL_CONTROL only |
| S3.BucketAclsRun | pkg/s3_client.go:181-245 | the model of `BucketAcls`: the bucket fetch, then the nil dereference or the ACL PUT of the mode's grants with the canned header; `BucketAclsShape` states it |
| S3.BucketAclsShape | pkg/s3_client.go:181-245 | the bucket GET first; the ACL PUT follows iff the bucket was found, with default or explicit grants by mode and the canned header; otherwise the call aborts |
| S3.BucketAclsNon200Aborts | pkg/s3_client.go:184-188 | a non-200 answer to the bucket fetch aborts after the GET alone |
| S3.ToUpper | pkg/s3_client.go:250 | upper-cases ASCII letters and leaves every other character alone |
| S3.ToCamelCase | pkg/s3_client.go:247-253 | the model of `toCamelCase` as a left-to-right scan replacing non-overlapping matches; the lemmas below state it |
| S3.CamelCaseLength | pkg/s3_client.go:247-253 | each replacement removes one character; at most half the characters are replaced |
| S3.ReplacementsIffMatch | pkg/s3_client.go:247-253 | no replacement happens exactly when no separator is followed by a word character |
| S3.CamelCaseFixedPoint | pkg/s3_client.go:247-253 | a name is left unchanged iff it has no separator followed by a word character |
| S3.NoMatchUnchanged | pkg/s3_client.go:247-253 | a name with no match is left unchanged |
| S3.NoSeparatorUnchanged | pkg/s3_client.go:247-253 | a name with no `-` or `_` is left unchanged |
| S3.CamelCaseAtSeparator | pkg/s3_client.go:247-253 | at the first match (no separator followed by a word character occurs before it, its own separator included), the text before is kept, the separator is dropped, the character is upper-cased, and the rest is scanned on |
| S3.TwoWordsToCamel | pkg/s3_client.go:247-253 | `first-word` / `first_word` becomes `firstWord` |
| S3.SharedCors | pkg/s3_client.go:258-267 | the model of the document `BucketCors` sends: no `corsRules` for no rules, otherwise one entry per rule, all the same map, which is the merge of the camel-cased rules with later rules overriding |
| S3.SingleRuleAsIntended | pkg/s3_client.go:255-283 | with one rule, the sent document holds exactly that rule's camel-cased fields |
| S3.SharedCorsLosesEarlierRule | pkg/s3_client.go:258-267 | two rules setting one field differently are both sent with the later value, so the document is not the intended one |
| S3.MergeStep | pkg/s3_client.go:262-266 | after every field of a rule is written, the shared map is the merge of the rules so far |
| S3.PartialMergeAdd | pkg/s3_client.go:263-265 | writing one more field under its camelCase name keeps the partial merge |
| S3.JsonMap.SetFields | pkg/s3_client.go:263-265 | the inner loop, in any key order, makes the shared map the merge of the rules so far with later rules overriding |
| S3.BuildCorsRules | pkg/s3_client.go:258-267 | the corrected builder: entry i holds exactly rule i's camel-cased fields |
| S3.DeleteBucketRun | pkg/s3_client.go:325-343 | the bulk delete POST on `?delete` comes first; the bucket DELETE follows iff it returned no error; otherwise the call aborts with that error |
| S3.DeleteTargets | pkg/s3_client.go:326-341 | the POST goes to `<base>?delete`; the DELETE goes to the bare bucket URL with no body |
| S3.S3Client.constructor | pkg/types.go:5-11 | the client holds the host, region, token and the fixed API path; nothing has been sent |
| S3.S3Client.DoRequest | pkg/s3_client.go:60-98 | appends the one request and returns the reply's classification |
| S3.S3Client.DoUpload | pkg/s3_client.go:100-129 | appends and returns what `DoUploadRun` says |
| S3.S3Client.GetBucket | pkg/s3_client.go:131-137 | appends and returns what `GetBucketRun` says |
| S3.S3Client.CreateBucket | pkg/s3_client.go:139-147 | appends and returns what `CreateBucketRun` says |
| S3.S3Client.BucketTags | pkg/s3_client.go:149-167 | the tag-set loop and both requests give exactly `BucketTagsRun` |
| S3.S3Client.RemoveBucketTags | pkg/s3_client.go:169-174 | appends and returns what `RemoveBucketTagsRun` says |
| S3.S3Client.UploadObject | pkg/s3_client.go:176-179 | appends and returns what `UploadObjectRun` says |
| S3.S3Client.BucketAcls | pkg/s3_client.go:181-245 | the fetch, the grant loop and the PUT give exactly `BucketAclsRun` |
| S3.S3Client.DefaultAcl | pkg/s3_client.go:285-306 | appends and returns what `DefaultAclRun` says |
| S3.S3Client.GetBucketObject | pkg/s3_client.go:308-323 | appends and returns what `GetBucketObjectRun` says |
| S3.S3Client.BucketCors | pkg/s3_client.go:255-283 | one PUT on `?cors` with the JSON headers, whose document has one entry per rule, all the same shared merged map; the outcome is its reply's |
| S3.S3Client.DeleteBucket | pkg/s3_client.go:325-343 | appends and returns what `DeleteBucketRun` says |
| ResourceBucket.Quoted | objectstorage/resource_bucket.go:96 | the value between double quotes |
| ResourceBucket.ValidateAclPermission | objectstorage/resource_bucket.go:88-104 | no diagnostic iff the value is one of the five permissions; otherwise exactly one error with the fixed summary, `"<v>" is not a valid ACL Permission` and the path |
| ResourceBucket.ValidateAclUser | objectstorage/resource_bucket.go:106-122 | no diagnostic iff the value is one of the four users; otherwise exactly one error with the fixed summary, `"<v>" is not a valid ACL User` and the path |
| ResourceBucket.ValidateCannedAcl | objectstorage/resource_bucket.go:124-140 | no diagnostic iff the value is one of the four canned ACLs; otherwise exactly one error with the fixed summary, `"<v>" is not x-amz-acl valid value` and the path |
| ResourceBucket.ValidUserHasGrantee | objectstorage/resource_bucket.go:106-122 | a user passes validation iff the grant builder gives it a grantee |
| ResourceBucket.ValidCannedAclIsSent | objectstorage/resource_bucket.go:124-140 | a canned ACL that passes validation is sent as the `X-Amz-Acl` header |
| ResourceBucket.ClientError | objectstorage/resource_bucket.go:187-191 | an error with no path, whose detail is `<summary>: <error>` |
| ResourceBucket.AclStepRun | objectstorage/resource_bucket.go:185-205 | the model of update's ACL branch: one `BucketAcls` call, in explicit mode with the entries when there are any, otherwise in default mode with none |
| ResourceBucket.UpdateRun | objectstorage/resource_bucket.go:174-218 | the model of `resourceBucketUpdate`: the ACL step, its panic or error diagnostic, then the tag step when there are tags |
| ResourceBucket.CreateRun | objectstorage/resource_bucket.go:143-165 | create always sends the create PUT first |
| ResourceBucket.UpdateSendsTagsIff | objectstorage/resource_bucket.go:174-218 | exactly one ACL call, in explicit mode iff there are entries; anything after it is sent iff that call passed and there are tags |
| ResourceBucket.UpdateAclStep | objectstorage/resource_bucket.go:185-205 | update starts with the bucket GET; if the bucket is found, the ACL PUT carries the grants the entries select and the canned header; otherwise it panics after the GET alone |
| ResourceBucket.CannedAndExplicitSentTogether | objectstorage/resource_bucket.go:185-194 | with both a canned ACL and entries, the ACL PUT carries the explicit grants and the `X-Amz-Acl` header |
| ResourceBucket.AclFailureSkipsTags | objectstorage/resource_bucket.go:185-205 | an ACL error ends update with one `Error editing bucket ACLs` diagnostic, and no tag request is sent |
| ResourceBucket.TagsReplacedAfterAcl | objectstorage/resource_bucket.go:206-216 | after a passing ACL step, non-empty tags give a DELETE on `?tagging`, then a PUT whose document reads back as exactly the tags |
| ResourceBucket.UpdateAfterTags | objectstorage/resource_bucket.go:206-216 | after a passing ACL step with tags, update returns one `Error editing bucket TAGs: <err>` diagnostic when the tag PUT failed, and none otherwise, whatever the DELETE got |
| ResourceBucket.UpdateDiagnostics | objectstorage/resource_bucket.go:174-218 | update returns at most one diagnostic, always an error, and none when the ACL step passes and there are no tags |
| ResourceBucket.CreateFailureStops | objectstorage/resource_bucket.go:151-159 | a create request that gets no answer returns one `Error creating bucket` diagnostic and sends nothing more |
| ResourceBucket.CreateThenUpdate | objectstorage/resource_bucket.go:151-164 | any answer to the create PUT, whatever its status, is followed by update, and update's result is create's |
| ResourceBucket.CreatePlainBucket | objectstorage/resource_bucket.go:143-165 | with no entries and no tags: the create PUT, the bucket GET, then one ACL PUT with only the owner's FULL_CONTROL and no canned header |
| ResourceBucket.ResourceData.constructor | objectstorage/resource_bucket.go:23-84 | the configuration as the handlers read it, with no id yet |
| ResourceBucket.UpdateAcls | objectstorage/resource_bucket.go:185-205 | the ACL branch of update sends and returns exactly `AclStepRun` |
| ResourceBucket.ResourceBucketUpdate | objectstorage/resource_bucket.go:174-218 | sends and returns exactly `UpdateRun` |
| ResourceBucket.ResourceBucketCreate | objectstorage/resource_bucket.go:143-165 | sets the new id, even when creation then fails, and sends and returns exactly `CreateRun` |
| ResourceBucket.ResourceBucketRead | objectstorage/resource_bucket.go:168-172 | sends nothing and returns no diagnostic |
| ResourceBucket.ResourceBucketDelete | objectstorage/resource_bucket.go:221-225 | sends nothing and returns no diagnostic; the bucket is not deleted |

## Left out

- `NewS3Client` (pkg/s3_client.go:21-51) is not modelled: the token exchange with the VCD login endpoint, TLS settings and the HTTP client. The client is built from its host, region and token directly.
- Logging (`log.Printf`, `log.Println`) is not modelled. `log.Panicf` is modelled only as a panic that stops the operation.
- A failure of `http.NewRequest` (a malformed URL or method) is not modelled. Every request is assumed to be built.
- `json.Marshal` is not modelled byte for byte. The ACL and CORS bodies are kept as the structure that is marshalled, and the marshalling error path is left out. `json.Unmarshal` is the `decodeBucket` oracle.
- Header names are not canonicalised (`Header.Add` canonicalises `accept`), and Go's random map order is not modelled for the canned header, which is at most one entry.
- The tag-set read-back is proved only for names and values that need no JSON escaping. `QuoteInValueBreaksDocument` shows that a `"` breaks the document.
- Quoted: a model of Go's `%q` for values without characters that Go escapes. Escapes of `"`, `\` and control characters are not modelled.
- UpdateAcls is a helper method for the ACL branch of `resourceBucketUpdate`; it has no counterpart function in the source.
- S3.UserGrantList and S3.JsonMap.SetFields are loops of `BucketAcls` and `BucketCors`, lifted into their own methods.
- S3.S3Client.BucketCors: the order of the fields inside one rule is the map's own, so its contract is a relation (`SharedCors`) and not a single document.
- CORS rule field values are modelled as string lists and integers only.
- The resource's schema declaration (`resourceBucket`), the `context` argument, the `meta` cast and the UUID generator (the new id is a parameter) are not modelled.
- The other resources and data sources of the provider (`objectstorage/resource_object.go`, `resource_bucket_acl.go`, `data_source_bucket.go`, `provider.go`) are not part of this model.

## Findings

| source | as written | input that shows it | evidently intended | confidence | as-written member | corrected member |
|---|---|---|---|---|---|---|
| pkg/s3_client.go:258-267 | one map `cors` is created before the loop over rules, and every rule writes into it and appends that same map | two CORS rules, the first with `allowed_methods = ["GET"]`, the second with `allowed_methods = ["PUT"]`: both entries are sent with `["PUT"]` | one map per rule, so that entry i holds rule i's fields only | not executed | S3.SharedCorsLosesEarlierRule | S3.BuildCorsRules |

`S3.S3Client.BucketCors` keeps the behaviour as written, because it models the client. `S3.BuildCorsRules` is the corrected builder, and its contract states the intended document.
