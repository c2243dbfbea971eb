/**
 * A repository of the GitHub search API, as the tools and repositories
 * fetchers read it, and the ways a search request can end.
 */
module GitHub {
  import opened Wrappers

  /** `repo.license`: its SPDX id and its name, either possibly missing. */
  datatype License = License(spdxId: Option<string>, name: Option<string>)

  /** The fields of one search result that the fetchers read. */
  datatype Repo = Repo(
    id: nat,
    fullName: string,
    description: Option<string>,
    topics: Option<seq<string>>,
    stars: nat,
    forks: nat,
    license: Option<License>,
    ownerLogin: Option<string>,
    pushedAt: Option<string>,
    createdAt: Option<string>,
    htmlUrl: string,
    language: Option<string>,
    size: nat)

  /** How a search request ended: it threw, it was not ok, or its JSON and the `items` in it (if any). */
  datatype SearchReply = SearchThrew | SearchNotOk(status: int) | SearchOk(items: Option<seq<Repo>>)

  /** `repo.license?.spdx_id`. */
  function SpdxId(repo: Repo): Option<string> {
    if repo.license.Some? then repo.license.value.spdxId else None
  }

  /** `repo.license?.name`. */
  function LicenseName(repo: Repo): Option<string> {
    if repo.license.Some? then repo.license.value.name else None
  }
}
