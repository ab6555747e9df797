# xw-batch stack composition, modelled in Dafny

This project models how `XwBatchStack` (xw-batch, an AWS CDK stack for a small
data lake) builds its resource graph. It takes one flag, `keep_data_resources_on_destroy`,
plus the paths the example-data copy writes to. From these it builds:

- the raw-data bucket, with a removal policy and an auto-delete argument;
- the example-data copy binding;
- the Glue service role;
- one manual Glue crawler per raw table path;
- the grant edges between the bucket, the role and the data-lake debugging group.

Modules:

- `Removal` (removal.dfy): `RemovalPolicy`, the bucket `Lifecycle` and `ResolveRemoval`, with the
  invariant that auto-delete is set only for a destroyed bucket.
- `Naming` (naming.dfy): the table id (`Slug`, every `/` replaced by `-`), the crawler
  name, the S3 target URI, and the catalog's `[a-z0-9_]{1,255}` name rule.
- `Resources` (resources.dfy): the resource datatypes (`Bucket`, `CopyBinding`, `Role`,
  `Crawler`, `Grant`, `ResourceGraph`), the crawler for a path, the crawlers
  for a path list, and `Compose`, the whole graph as a value.
- `Stack` (stack.dfy): the class `XwBatchStack`. Its fields are reassigned step by
  step, in the constructor's order. The constructor's postcondition equates the
  finished object with `Compose`. Lemmas about `Compose` state what the stack
  promises.

The bucket name and the role ARN are deploy-time tokens. The name of the
debugging group (`GROUP_DATA_LAKE_DEBUGGING`) is defined in
`users_and_groups`, which is not part of this model. All three are opaque
string parameters. Every function here is deterministic, so composing twice
with the same inputs gives the same graph. Managed-policy attachments and bucket
grants are edges (`Grant`). The role's trust principal is a field of `Role`.

## Model

| member | source | states |
|---|---|---|
| Removal.ResolveRemoval | xw-batch/xw_batch/xw_batch_stack.py:24-32 | Removal policy is RETAIN exactly when the flag keeps data. Auto-delete is set exactly when it does not, and only ever to true. The result satisfies the lifecycle invariant and is never (RETAIN, true). |
| Naming.Slug | xw-batch/xw_batch/xw_batch_stack.py:86 | The table id has the path's length and no `/`. Each position is `-` where the path had `/` and the path's character elsewhere. |
| Naming.CrawlerName | xw-batch/xw_batch/xw_batch_stack.py:88 | The name is the prefix `rawcrawler-` followed by the table id. Both parts can be read back by slicing. |
| Naming.S3Uri | xw-batch/xw_batch/xw_batch_stack.py:98 | The target splits back into `s3://`, the bucket name and the table path unchanged, with lengths adding up. |
| Naming.SlugNotInjective | xw-batch/xw_batch/xw_batch_stack.py:86-88 | The distinct paths `/a-b` and `/a/b` get the same table id, so their crawlers would ask for the same construct id. |
| Resources.CrawlerForShape | xw-batch/xw_batch/xw_batch_stack.py:85-101 | A crawler's id equals its name. The name is `rawcrawler-` plus the table id and has no `/`. It uses the given role and database `data_lake_raw`. It has exactly one S3 target, the path's URI in the bucket. |
| Resources.CrawlersFor | xw-batch/xw_batch/xw_batch_stack.py:85-102 | Exactly one crawler description per table path, in list order, with no deduplication. Crawler i is the crawler for path i. |
| Resources.CrawlersForAppend | xw-batch/xw_batch/xw_batch_stack.py:85-102 | Appending a path to the list appends exactly its crawler, which is what each loop iteration does. |
| Resources.CrawlerIdsCollide | xw-batch/xw_batch/xw_batch_stack.py:86-91 | Two paths' crawlers get the same construct id exactly when the paths get the same table id. |
| Resources.RegisterCrawlers | xw-batch/xw_batch/xw_batch_stack.py:85-102 | Registering the crawlers in one scope succeeds exactly when no two paths of the list share a table id. It then yields `CrawlersFor` of the list, with distinct ids. Otherwise it fails, as the scope refuses a taken construct id. |
| Resources.RepeatedPathRejected | xw-batch/xw_batch/xw_batch_stack.py:85-91 | A path listed twice makes registration fail. |
| Resources.CollidingPathsRejected | xw-batch/xw_batch/xw_batch_stack.py:85-91 | The distinct paths `/a-b` and `/a/b` make registration fail. |
| Resources.CrawlersShareRoleAndDatabase | xw-batch/xw_batch/xw_batch_stack.py:89-101 | For any path list, every crawler uses the same role and database, has its name as its id, and has one S3 target, its own path's. |
| Stack.XwBatchStack.constructor | xw-batch/xw_batch/xw_batch_stack.py:14-116 | The flag is keyword-only and defaults to keeping data. Crawler registration never fails here. The graph the constructor leaves in the object's fields equals `Compose` of the flag and the tokens. |
| Stack.XwBatchStack.AddManagedPolicy | xw-batch/xw_batch/xw_batch_stack.py:72-75 | Appends exactly one managed-policy edge for the holder. No other field changes. |
| Stack.XwBatchStack.GrantReadWrite | xw-batch/xw_batch/xw_batch_stack.py:76 | Appends exactly one read-write edge from this stack's bucket to the grantee. No other field changes. |
| Stack.XwBatchStack.GrantRead | xw-batch/xw_batch/xw_batch_stack.py:78-80 | Appends exactly one read edge from this stack's bucket to the grantee. No other field changes. |
| Stack.XwBatchStack.ProvisionCrawlers | xw-batch/xw_batch/xw_batch_stack.py:85-102 | The loop registers each path's crawler under its name as construct id. It succeeds exactly when the registered and new crawlers have distinct ids. On success it has appended the crawlers for the path list, in order, over the stack's bucket name and role ARN. Ids stay distinct and no other field changes. |
| Stack.DefaultRetainsBucket | xw-batch/xw_batch/xw_batch_stack.py:19-42 | With the default flag the bucket is RETAIN and auto-delete is unset. |
| Stack.ExampleTableId | xw-batch/xw_batch/xw_batch_stack.py:86 | The table id of `/raw/scoofy/journeys/` is `-raw-scoofy-journeys-`. |
| Stack.ExampleCrawlerName | xw-batch/xw_batch/xw_batch_stack.py:88 | The crawler name built from that table id is `rawcrawler--raw-scoofy-journeys-`. |
| Stack.ExampleCrawler | xw-batch/xw_batch/xw_batch_stack.py:51-101 | The path list is the copy's target path alone. So the stack has exactly one crawler, `rawcrawler--raw-scoofy-journeys-` (also its id). It uses the role ARN and `data_lake_raw`, and targets `s3://<bucket>/raw/scoofy/journeys/`. |
| Stack.CopyFeedsCrawlers | xw-batch/xw_batch/xw_batch_stack.py:45-101 | The copy writes into the stack's own bucket. The crawlers are exactly the one for the copy's target path in that bucket, and registering it succeeds. |
| Stack.GrantEdges | xw-batch/xw_batch/xw_batch_stack.py:67-116 | The role is assumed by `glue.amazonaws.com`. The grant edges are exactly four, each once: role holds `service-role/AWSGlueServiceRole`; bucket grants read-write to the role; bucket grants read to the debugging group; group holds `CloudWatchReadOnlyAccess`. |
| Stack.FlagChangesOnlyLifecycle | xw-batch/xw_batch/xw_batch_stack.py:24-116 | The two flag values give different bucket lifecycles. Replacing one graph's lifecycle with the other's makes the graphs equal, so crawlers, role, copy and grants do not depend on the flag. |
| Stack.ComposedLifecycleValid | xw-batch/xw_batch/xw_batch_stack.py:29-42 | The bucket of every composed graph keeps the invariant that auto-delete is set only for DESTROY. |
| Stack.RawDatabaseNameCatalogSafe | xw-batch/xw_batch/xw_batch_stack.py:62-64 | `data_lake_raw` satisfies `[a-z0-9_]{1,255}`. |

## Left out

- CDK framework plumbing is not modelled: the `aws_cdk.Stack` base class, `super().__init__`, and synthesis and deployment. The stack is a class whose fields hold the registered resources. Of construct registration, only the refusal of a taken crawler id is modelled.
- `CopyS3Data` (copy_s3_data) is not part of this model. Its construct is reduced to its arguments: id, source bucket name and path, target bucket (by construct id) and target path. What the copy does at deploy time is not modelled.
- `create_org_groups`, `OrgUsersAndGroups` and `GROUP_DATA_LAKE_DEBUGGING` (users_and_groups) are not part of this model. The group collection is reduced to the one group the stack uses, named by an opaque string.
- Managed-policy contents and IAM semantics are left out. Policies are opaque name strings and grants are edges.
- Bucket names and role ARNs are CloudFormation tokens resolved at deploy time. They are opaque strings here.
- Table paths are not checked against the `[a-z0-9_]` catalog rule, because the source does not check them either (only a comment mentions the rule). Only the database name is proved to satisfy it.
- The constructor raises no error for (RETAIN, auto-delete true): the source never builds that pair and has no check that fails fast. The model follows the code, and `ResolveRemoval` proves the pair cannot arise.
- Python object identity is left out. Grants and crawlers refer to the bucket, role and group by id or token, so aliasing between the CDK objects is not modelled.
- Stack.XwBatchStack.ProvisionCrawlers: checks a new crawler's construct id only against the crawlers already registered. The bucket, copy and role ids cannot equal a `rawcrawler-` name, but the ids registered by `create_org_groups` are unknown. When registration fails, the method does not describe which crawlers were already added, because the source raises and discards the stack.
