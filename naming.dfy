/** Names and locations derived from a logical table path such as
    "/raw/scoofy/journeys/". */
module Naming {

  const PathSeparator: char := '/'
  const SlugSeparator: char := '-'
  const CrawlerNamePrefix: string := "rawcrawler-"
  const S3Scheme: string := "s3://"

  /** One character of a table id: the separator becomes a hyphen. */
  function SlugChar(c: char): char
  {
    if c == PathSeparator then SlugSeparator else c
  }

  /** The table id of a path: every '/' replaced by '-' (Python's
      str.replace("/", "-")). Same length as the path, no '/' left, and every
      other character kept in place. */
  function Slug(path: string): (r: string)
    ensures |r| == |path|
    ensures forall i :: 0 <= i < |path| ==> r[i] == SlugChar(path[i])
    ensures PathSeparator !in r
  {
    seq(|path|, i requires 0 <= i < |path| => SlugChar(path[i]))
  }

  /** The crawler name (also its construct id): "rawcrawler-" followed by the
      table id. */
  function CrawlerName(tableId: string): (r: string)
    ensures |r| == |CrawlerNamePrefix| + |tableId|
    ensures r[..|CrawlerNamePrefix|] == CrawlerNamePrefix
    ensures r[|CrawlerNamePrefix|..] == tableId
  {
    CrawlerNamePrefix + tableId
  }

  /** The crawler's S3 target: scheme, bucket name, then the table path as is
      (the path carries its own leading '/'). The three parts can be read back. */
  function S3Uri(bucketName: string, path: string): (r: string)
    ensures |r| == |S3Scheme| + |bucketName| + |path|
    ensures r[..|S3Scheme|] == S3Scheme
    ensures r[|S3Scheme|..|S3Scheme| + |bucketName|] == bucketName
    ensures r[|S3Scheme| + |bucketName|..] == path
  {
    S3Scheme + bucketName + path
  }

  /** Characters the Glue/Athena catalog accepts in database and table names. */
  predicate CatalogChar(c: char)
  {
    ('a' <= c <= 'z') || ('0' <= c <= '9') || c == '_'
  }

  /** A name matching [a-z0-9_]{1,255}. */
  predicate CatalogSafe(name: string)
  {
    1 <= |name| <= 255 && forall i :: 0 <= i < |name| ==> CatalogChar(name[i])
  }

  /** Two different table paths can give the same table id: the replacement
      forgets which hyphens were slashes. Their crawlers would then ask for the
      same construct id. */
  lemma SlugNotInjective()
    ensures "/a-b" != "/a/b" && Slug("/a-b") == Slug("/a/b")
  {
  }
}
