/**
 * The GitHub data the services consume: repositories and account statistics,
 * as the GitHub service returns them. Times are instants in seconds.
 */
module GitHubModels {
  import opened Wrappers

  /** `GitHubRepository`, without the numeric id, home page, archive and
      privacy flags and creation and update times, which nothing here reads.
      `languages` is the language list the README generator reads. */
  datatype Repository = Repository(
    name: string,
    fullName: string,
    description: Option<string>,
    htmlUrl: string,
    language: Option<string>,
    starsCount: int,
    forksCount: int,
    isFork: bool,
    size: int,
    topics: Option<seq<string>>,
    pushedAt: Option<int>,
    languages: Option<seq<string>>)

  /** `GitHubStats`, without the top-language breakdown and fetch time. */
  datatype Stats = Stats(
    username: string,
    publicReposCount: int,
    totalStars: int,
    totalForks: int,
    followers: int,
    following: int,
    totalCommits: int)
}
