/**
 * Page-type detection: on load, the body gets exactly one of four classes
 * naming the kind of page, decided from the host blog's page metadata and
 * the URL path.
 */
module PageType {
  import opened Wrappers
  import opened Text

  const PERMALINK := "tt-body-permalink"
  const ARCHIVE := "tt-body-archive"
  const CATEGORY := "tt-body-category"
  const INDEX := "tt-body-index"
  const PAGE_CLASSES := {PERMALINK, ARCHIVE, CATEGORY, INDEX}

  /** A script value whose truthiness is tested. */
  datatype Value = Undefined | Null | Bool(b: bool) | Num(n: int) | Str(s: string)

  /** JavaScript truthiness. */
  predicate Truthy(v: Value)
  {
    match v
    case Undefined => false
    case Null => false
    case Bool(b) => b
    case Num(n) => n != 0
    case Str(s) => s != ""
  }

  /** `window.T.entryInfo`, present on article pages. */
  datatype EntryInfo = EntryInfo(entryId: Value)

  /** `window.T`, the host's page-metadata object, with its optional `entryInfo`. */
  datatype HostMeta = HostMeta(entryInfo: Option<EntryInfo>)

  /** `window.T && window.T.entryInfo && window.T.entryInfo.entryId`. */
  predicate IsPermalink(host: Option<HostMeta>)
    ensures host.None? || host.value.entryInfo.None? ==> !IsPermalink(host)
    ensures host.Some? && host.value.entryInfo.Some? ==>
      (IsPermalink(host) <==> Truthy(host.value.entryInfo.value.entryId))
  {
    host.Some? && host.value.entryInfo.Some? && Truthy(host.value.entryInfo.value.entryId)
  }

  /** The page class chosen for `host` and `path`, by priority permalink, archive, category, index. */
  function PageClass(host: Option<HostMeta>, path: string): (c: string)
    ensures c in PAGE_CLASSES
    ensures c == PERMALINK <==> IsPermalink(host)
    ensures c == ARCHIVE <==> !IsPermalink(host) && Includes(path, "/archive")
    ensures c == CATEGORY <==> !IsPermalink(host) && !Includes(path, "/archive") && Includes(path, "/category/")
    ensures c == INDEX <==> !IsPermalink(host) && !Includes(path, "/archive") && !Includes(path, "/category/")
  {
    if IsPermalink(host) then PERMALINK
    else if Includes(path, "/archive") then ARCHIVE
    else if Includes(path, "/category/") then CATEGORY
    else INDEX
  }

  /** The body's class list after detection: the chosen class is added, nothing removed. */
  function ClassifyBody(body: set<string>, host: Option<HostMeta>, path: string): (r: set<string>)
    ensures body <= r
    ensures r - body <= {PageClass(host, path)}
    ensures PageClass(host, path) in r
  {
    body + {PageClass(host, path)}
  }

  /** A body that had none of the page classes ends up with exactly one. */
  lemma ExactlyOnePageClass(body: set<string>, host: Option<HostMeta>, path: string)
    requires body * PAGE_CLASSES == {}
    ensures ClassifyBody(body, host, path) * PAGE_CLASSES == {PageClass(host, path)}
  {
  }

  /** The archive check comes first: a category whose path contains "/archive" is classified as the archive. */
  lemma CategoryNamedArchiveIsArchive()
    ensures PageClass(None, "/category/archive") == ARCHIVE
  {
    assert "/category/archive" == "/category" + "/archive";
    IncludesSuffix("/category", "/archive");
  }

  /** An entry id of 0 or "" is falsy, so such a page is not detected as a permalink. */
  lemma FalsyEntryIdIsNotPermalink(path: string)
    ensures PageClass(Some(HostMeta(Some(EntryInfo(Num(0))))), path) != PERMALINK
    ensures PageClass(Some(HostMeta(Some(EntryInfo(Str(""))))), path) != PERMALINK
  {
  }
}
