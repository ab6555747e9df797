/** The resource descriptions the stack composes, and the composition itself
    as a value: the flag and the deploy-time tokens in, the resource graph out. */
module Resources {
  import opened Wrappers
  import opened Removal
  import opened Naming

  /** The raw-data bucket; its name is a deploy-time token. */
  datatype Bucket = Bucket(id: string, name: string, lifecycle: Lifecycle)

  /** The one-time copy of example data into a bucket (CopyS3Data), reduced to
      its configuration: the target bucket is named by its construct id. Its
      target path feeds crawler provisioning. */
  datatype CopyBinding = CopyBinding(
    id: string, sourceBucketName: string, sourcePath: string,
    targetBucketId: string, targetPath: string)

  /** The crawlers' service role: who may assume it and its ARN (a token). */
  datatype Role = Role(id: string, assumedBy: string, arn: string)

  /** A Glue crawler with its S3 targets. */
  datatype Crawler = Crawler(
    id: string, name: string, role: string, databaseName: string, s3Targets: seq<string>)

  /** Who receives a grant or a managed policy. */
  datatype Principal = RoleRef(roleId: string) | GroupRef(groupName: string)

  datatype Access = Read | ReadWrite

  /** An edge of the graph: a managed policy attached to a role or group, or a
      permission on the bucket granted to one. */
  datatype Grant =
    | ManagedPolicy(holder: Principal, policy: string)
    | BucketAccess(bucketId: string, grantee: Principal, access: Access)

  /** Everything the stack holds once its constructor returns. */
  datatype ResourceGraph = ResourceGraph(
    bucket: Bucket,
    ingestion: CopyBinding,
    role: Role,
    debuggingGroup: string,
    grants: seq<Grant>,
    crawlers: seq<Crawler>)

  const BucketId: string := "xw_batch_bucket_raw"
  const ScoofyExampleCopy: CopyBinding := CopyBinding(
    "copy-scoofy-example-data", "xw-d13g-scoofy-data-inputs",
    "/data/journeys", BucketId, "/raw/scoofy/journeys/")
  const RawDatabaseName: string := "data_lake_raw"
  const RoleId: string := "s3-raw-access-glue"
  const GluePrincipal: string := "glue.amazonaws.com"
  const GlueServiceRolePolicy: string := "service-role/AWSGlueServiceRole"
  const CloudWatchReadOnlyPolicy: string := "CloudWatchReadOnlyAccess"

  /** The crawler for one table path. */
  function CrawlerFor(tablePath: string, bucketName: string, roleArn: string): Crawler
  {
    var name := CrawlerName(Slug(tablePath));
    Crawler(name, name, roleArn, RawDatabaseName, [S3Uri(bucketName, tablePath)])
  }

  /** A crawler is named after its path's table id, its construct id is its
      name, it is run by the shared role, writes to the raw database and has
      exactly one S3 target, which points at the path inside the bucket. Its
      name has no '/' in it. */
  lemma CrawlerForShape(tablePath: string, bucketName: string, roleArn: string)
    ensures var c := CrawlerFor(tablePath, bucketName, roleArn);
      && c.id == c.name
      && |c.name| == |CrawlerNamePrefix| + |tablePath|
      && c.name[..|CrawlerNamePrefix|] == CrawlerNamePrefix
      && c.name[|CrawlerNamePrefix|..] == Slug(tablePath)
      && PathSeparator !in c.name
      && c.role == roleArn && c.databaseName == RawDatabaseName
      && |c.s3Targets| == 1 && c.s3Targets[0] == S3Uri(bucketName, tablePath)
  {
  }

  /** The crawler descriptions for a list of table paths: one per entry, in
      list order, with no deduplication. Whether the stack's scope accepts them
      all is RegisterCrawlers' concern. */
  function CrawlersFor(tablePaths: seq<string>, bucketName: string, roleArn: string): (cs: seq<Crawler>)
    ensures |cs| == |tablePaths|
    ensures forall i :: 0 <= i < |tablePaths| ==> cs[i] == CrawlerFor(tablePaths[i], bucketName, roleArn)
  {
    if tablePaths == [] then []
    else [CrawlerFor(tablePaths[0], bucketName, roleArn)] + CrawlersFor(tablePaths[1..], bucketName, roleArn)
  }

  /** Appending a table path appends its crawler. */
  lemma CrawlersForAppend(paths: seq<string>, path: string, bucketName: string, roleArn: string)
    ensures CrawlersFor(paths + [path], bucketName, roleArn)
         == CrawlersFor(paths, bucketName, roleArn) + [CrawlerFor(path, bucketName, roleArn)]
  {
  }

  /** No two crawlers share a construct id. */
  predicate DistinctIds(cs: seq<Crawler>)
  {
    forall i, j :: 0 <= i < j < |cs| ==> cs[i].id != cs[j].id
  }

  /** No two table paths of the list share a table id. */
  predicate DistinctTableIds(tablePaths: seq<string>)
  {
    forall i, j :: 0 <= i < j < |tablePaths| ==> Slug(tablePaths[i]) != Slug(tablePaths[j])
  }

  /** Adding a crawler whose id no registered crawler has keeps ids distinct. */
  lemma DistinctIdsAppend(cs: seq<Crawler>, c: Crawler)
    requires DistinctIds(cs)
    requires forall j :: 0 <= j < |cs| ==> cs[j].id != c.id
    ensures DistinctIds(cs + [c])
  {
  }

  /** If the crawler for path i clashes with one registered before it, the
      whole list of registered and new crawlers has a repeated id. */
  lemma ClashBreaksDistinct(registered: seq<Crawler>, tablePaths: seq<string>, i: nat, j: nat,
                            bucketName: string, roleArn: string)
    requires i < |tablePaths| && j < |registered| + i
    requires (registered + CrawlersFor(tablePaths[..i], bucketName, roleArn))[j].id
          == CrawlerFor(tablePaths[i], bucketName, roleArn).id
    ensures !DistinctIds(registered + CrawlersFor(tablePaths, bucketName, roleArn))
  {
    var all := registered + CrawlersFor(tablePaths, bucketName, roleArn);
    var before := registered + CrawlersFor(tablePaths[..i], bucketName, roleArn);
    assert all[j] == before[j] by {
      if j >= |registered| {
        assert tablePaths[..i][j - |registered|] == tablePaths[j - |registered|];
      }
    }
    assert all[|registered| + i] == CrawlerFor(tablePaths[i], bucketName, roleArn);
  }

  /** Two paths give crawlers with the same construct id exactly when they give
      the same table id. */
  lemma CrawlerIdsCollide(p: string, q: string, bucketName: string, roleArn: string)
    ensures CrawlerFor(p, bucketName, roleArn).id == CrawlerFor(q, bucketName, roleArn).id
        <==> Slug(p) == Slug(q)
  {
  }

  /** Registering the crawlers for a path list in one scope: every crawler
      is added under its name as construct id, and the scope refuses an id it
      already holds, which aborts the stack (None). That happens exactly when
      two paths of the list share a table id: a repeated path, or paths that
      differ only where one has '/' and the other '-'. */
  function RegisterCrawlers(tablePaths: seq<string>, bucketName: string, roleArn: string): (r: Option<seq<Crawler>>)
    ensures r.Some? <==> DistinctTableIds(tablePaths)
    ensures r.Some? ==> r.value == CrawlersFor(tablePaths, bucketName, roleArn) && DistinctIds(r.value)
  {
    var cs := CrawlersFor(tablePaths, bucketName, roleArn);
    assert DistinctIds(cs) <==> DistinctTableIds(tablePaths) by {
      forall i, j | 0 <= i < j < |tablePaths|
        ensures cs[i].id == cs[j].id <==> Slug(tablePaths[i]) == Slug(tablePaths[j])
      {
        CrawlerIdsCollide(tablePaths[i], tablePaths[j], bucketName, roleArn);
      }
    }
    if DistinctIds(cs) then Some(cs) else None
  }

  /** A repeated table path aborts the registration. */
  lemma RepeatedPathRejected(path: string, bucketName: string, roleArn: string)
    ensures RegisterCrawlers([path, path], bucketName, roleArn) == None
  {
  }

  /** So do the distinct paths "/a-b" and "/a/b", which share a table id. */
  lemma CollidingPathsRejected(bucketName: string, roleArn: string)
    ensures RegisterCrawlers(["/a-b", "/a/b"], bucketName, roleArn) == None
  {
    SlugNotInjective();
    assert Slug(["/a-b", "/a/b"][0]) == Slug(["/a-b", "/a/b"][1]);
  }

  /** Whatever the path list, every crawler shares the role and the raw
      database, has its name as its id, and has exactly one S3 target, which is
      its own path inside the bucket. */
  lemma CrawlersShareRoleAndDatabase(tablePaths: seq<string>, bucketName: string, roleArn: string)
    ensures var cs := CrawlersFor(tablePaths, bucketName, roleArn);
      forall i :: 0 <= i < |cs| ==>
        && cs[i].role == roleArn && cs[i].databaseName == RawDatabaseName
        && cs[i].id == cs[i].name
        && cs[i].s3Targets == [S3Uri(bucketName, tablePaths[i])]
  {
  }

  /** The grant edges in the order the constructor adds them. */
  function AccessGrants(bucketId: string, roleId: string, debuggingGroup: string): seq<Grant>
  {
    [ ManagedPolicy(RoleRef(roleId), GlueServiceRolePolicy),
      BucketAccess(bucketId, RoleRef(roleId), ReadWrite),
      BucketAccess(bucketId, GroupRef(debuggingGroup), Read),
      ManagedPolicy(GroupRef(debuggingGroup), CloudWatchReadOnlyPolicy) ]
  }

  /** The resource graph the stack's constructor builds. */
  function Compose(keep: bool, bucketName: string, roleArn: string, debuggingGroup: string): ResourceGraph
  {
    var bucket := Bucket(BucketId, bucketName, ResolveRemoval(keep));
    var role := Role(RoleId, GluePrincipal, roleArn);
    var tablePaths := [ScoofyExampleCopy.targetPath];
    ResourceGraph(bucket, ScoofyExampleCopy, role, debuggingGroup,
                  AccessGrants(BucketId, RoleId, debuggingGroup),
                  CrawlersFor(tablePaths, bucketName, roleArn))
  }
}
