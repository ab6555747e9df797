/** The stack object: its constructor registers the bucket, the example-data
    copy, the role, the crawlers and the grants one after another. */
module Stack {
  import opened Wrappers
  import opened Removal
  import opened Naming
  import opened Resources

  /** XwBatchStack. The resources registered in the stack's scope are held in
      fields that the constructor reassigns step by step. */
  class XwBatchStack {
    var bucket: Bucket
    var ingestion: CopyBinding
    var role: Role
    /** The debugging group, picked from the organisation's users and groups. */
    var debuggingGroup: string
    var grants: seq<Grant>
    var crawlers: seq<Crawler>

    /** The resource graph registered so far. */
    function Graph(): ResourceGraph
      reads this
    {
      ResourceGraph(bucket, ingestion, role, debuggingGroup, grants, crawlers)
    }

    /** Composes the stack. The bucket name, the role ARN and the debugging
        group's name are not known to the code and come in as opaque strings.
        The flag is passed by name only and defaults to keeping data. */
    constructor (bucketName: string, roleArn: string, debuggingGroupName: string,
                 nameonly keepDataResourcesOnDestroy: bool := DefaultKeepDataResourcesOnDestroy)
      ensures Graph() == Compose(keepDataResourcesOnDestroy, bucketName, roleArn, debuggingGroupName)
    {
      bucket := Bucket(BucketId, bucketName, ResolveRemoval(keepDataResourcesOnDestroy));
      ingestion := ScoofyExampleCopy;
      debuggingGroup := debuggingGroupName;
      role := Role(RoleId, GluePrincipal, roleArn);
      grants := [];
      crawlers := [];
      new;
      AddManagedPolicy(RoleRef(role.id), GlueServiceRolePolicy);
      GrantReadWrite(RoleRef(role.id));
      GrantRead(GroupRef(debuggingGroup));
      var registered := ProvisionCrawlers([ingestion.targetPath]);
      assert registered;
      AddManagedPolicy(GroupRef(debuggingGroup), CloudWatchReadOnlyPolicy);
      assert grants == AccessGrants(BucketId, RoleId, debuggingGroupName);
      assert crawlers == CrawlersFor([ScoofyExampleCopy.targetPath], bucketName, roleArn);
    }

    /** Attaches a managed policy to a role or group. */
    method AddManagedPolicy(holder: Principal, policy: string)
      modifies this`grants
      ensures grants == old(grants) + [ManagedPolicy(holder, policy)]
    {
      grants := grants + [ManagedPolicy(holder, policy)];
    }

    /** The bucket grants read and write access. */
    method GrantReadWrite(grantee: Principal)
      modifies this`grants
      ensures grants == old(grants) + [BucketAccess(bucket.id, grantee, ReadWrite)]
    {
      grants := grants + [BucketAccess(bucket.id, grantee, ReadWrite)];
    }

    /** The bucket grants read access. */
    method GrantRead(grantee: Principal)
      modifies this`grants
      ensures grants == old(grants) + [BucketAccess(bucket.id, grantee, Read)]
    {
      grants := grants + [BucketAccess(bucket.id, grantee, Read)];
    }

    /** Registers one crawler per table path, in order, over the stack's bucket
        and role, each under its name as construct id. The scope refuses an id
        it already holds: registration then stops with ok false, where the
        source raises and the stack is never finished. It succeeds exactly when
        the registered and the new crawlers all have distinct ids. */
    method ProvisionCrawlers(tablePaths: seq<string>) returns (ok: bool)
      requires DistinctIds(crawlers)
      modifies this`crawlers
      ensures DistinctIds(crawlers)
      ensures ok <==> DistinctIds(old(crawlers) + CrawlersFor(tablePaths, bucket.name, role.arn))
      ensures ok ==> crawlers == old(crawlers) + CrawlersFor(tablePaths, bucket.name, role.arn)
    {
      ok := true;
      for i := 0 to |tablePaths|
        invariant crawlers == old(crawlers) + CrawlersFor(tablePaths[..i], bucket.name, role.arn)
        invariant DistinctIds(crawlers)
      {
        var tableId := Slug(tablePaths[i]);
        var crawlerName := CrawlerName(tableId);
        var crawler := Crawler(crawlerName, crawlerName, role.arn, RawDatabaseName,
                               [S3Uri(bucket.name, tablePaths[i])]);
        assert crawler == CrawlerFor(tablePaths[i], bucket.name, role.arn);
        if exists j :: 0 <= j < |crawlers| && crawlers[j].id == crawler.id {
          ghost var j :| 0 <= j < |crawlers| && crawlers[j].id == crawler.id;
          ClashBreaksDistinct(old(crawlers), tablePaths, i, j, bucket.name, role.arn);
          ok := false;
          return;
        }
        DistinctIdsAppend(crawlers, crawler);
        CrawlersForAppend(tablePaths[..i], tablePaths[i], bucket.name, role.arn);
        assert tablePaths[..i + 1] == tablePaths[..i] + [tablePaths[i]];
        crawlers := crawlers + [crawler];
      }
      assert tablePaths[..|tablePaths|] == tablePaths;
    }
  }

  /** With the default flag (the constructor's default) the bucket is retained
      and auto-delete is unset. */
  lemma DefaultRetainsBucket(bucketName: string, roleArn: string, debuggingGroup: string)
    ensures Compose(DefaultKeepDataResourcesOnDestroy, bucketName, roleArn, debuggingGroup).bucket.lifecycle
         == Lifecycle(Retain, None)
  {
  }

  /** The table id of the example copy's target path. */
  lemma ExampleTableId()
    ensures Slug("/raw/scoofy/journeys/") == "-raw-scoofy-journeys-"
  {
  }

  /** The crawler name built from that table id. */
  lemma ExampleCrawlerName()
    ensures CrawlerName(Slug("/raw/scoofy/journeys/")) == "rawcrawler--raw-scoofy-journeys-"
  {
    ExampleTableId();
  }

  /** The example copy's target path is the only table path, so the stack has
      exactly one crawler, rawcrawler--raw-scoofy-journeys-, over
      s3://<bucket>/raw/scoofy/journeys/. */
  lemma ExampleCrawler(keep: bool, bucketName: string, roleArn: string, debuggingGroup: string)
    ensures Compose(keep, bucketName, roleArn, debuggingGroup).crawlers
         == [Crawler("rawcrawler--raw-scoofy-journeys-", "rawcrawler--raw-scoofy-journeys-",
                     roleArn, "data_lake_raw", ["s3://" + bucketName + "/raw/scoofy/journeys/"])]
  {
    ExampleCrawlerName();
  }

  /** The copy writes into the stack's own bucket, and the crawlers are exactly
      the one for the copy's target path in that bucket; registering it in the
      scope succeeds. */
  lemma CopyFeedsCrawlers(keep: bool, bucketName: string, roleArn: string, debuggingGroup: string)
    ensures var g := Compose(keep, bucketName, roleArn, debuggingGroup);
      && g.ingestion.targetBucketId == g.bucket.id
      && g.crawlers == [CrawlerFor(g.ingestion.targetPath, g.bucket.name, g.role.arn)]
      && RegisterCrawlers([g.ingestion.targetPath], g.bucket.name, g.role.arn) == Some(g.crawlers)
  {
  }

  /** The grant edges are exactly these four, each once: the role holds the Glue
      service-role policy, the bucket grants read-write to the role and read to
      the debugging group, and the group holds CloudWatch read-only access. The
      role is trusted by the Glue service. */
  lemma GrantEdges(keep: bool, bucketName: string, roleArn: string, debuggingGroup: string)
    ensures var g := Compose(keep, bucketName, roleArn, debuggingGroup);
      g.role.assumedBy == "glue.amazonaws.com" &&
      multiset(g.grants) == multiset{
        ManagedPolicy(RoleRef(g.role.id), "service-role/AWSGlueServiceRole"),
        BucketAccess(g.bucket.id, RoleRef(g.role.id), ReadWrite),
        BucketAccess(g.bucket.id, GroupRef(debuggingGroup), Read),
        ManagedPolicy(GroupRef(debuggingGroup), "CloudWatchReadOnlyAccess")}
  {
  }

  /** Flipping the flag changes the bucket's removal policy and auto-delete
      argument and nothing else: crawlers, role, copy and grants are the same. */
  lemma FlagChangesOnlyLifecycle(bucketName: string, roleArn: string, debuggingGroup: string)
    ensures var kept := Compose(true, bucketName, roleArn, debuggingGroup);
            var destroyed := Compose(false, bucketName, roleArn, debuggingGroup);
      kept.bucket.lifecycle != destroyed.bucket.lifecycle &&
      kept.(bucket := kept.bucket.(lifecycle := destroyed.bucket.lifecycle)) == destroyed
  {
  }

  /** Every composed bucket keeps the lifecycle invariant. */
  lemma ComposedLifecycleValid(keep: bool, bucketName: string, roleArn: string, debuggingGroup: string)
    ensures ValidLifecycle(Compose(keep, bucketName, roleArn, debuggingGroup).bucket.lifecycle)
  {
  }

  /** The raw database name satisfies the catalog's [a-z0-9_]{1,255} rule. */
  lemma RawDatabaseNameCatalogSafe()
    ensures CatalogSafe(RawDatabaseName)
  {
  }
}
