/** How `git push` treats tags: a mode has a title for the push dialog and
    the command-line argument it adds. The two standard modes and their
    order are fixed by the companion object. Persistence of the mode as
    settings state is not modelled. */
module PushTagMode {

  const AllTitle: string := "All"
  const AllArgument: string := "--tags"
  const FollowTitle: string := "Current Branch"
  const FollowArgument: string := "--follow-tags"

  /** `GitPushTagMode`; its title and argument stay mutable. */
  class GitPushTagMode {
    var title: string
    var argument: string

    /** `GitPushTagMode(title, argument)`: stores exactly what it is given. */
    constructor (title: string, argument: string)
      ensures this.title == title && this.argument == argument
    {
      this.title := title;
      this.argument := argument;
    }

    /** The no-argument constructor: copies the current title and argument
        of `ALL`. */
    constructor CopyOfAll(modes: TagModes)
      ensures title == modes.all.title && argument == modes.all.argument
    {
      title := modes.all.title;
      argument := modes.all.argument;
    }
  }

  /** The companion object: the `ALL` and `FOLLOW` instances and `values`. */
  class TagModes {
    const all: GitPushTagMode
    const follow: GitPushTagMode
    const values: seq<GitPushTagMode>

    constructor ()
      ensures fresh(all) && fresh(follow) && all != follow
      ensures all.title == AllTitle && all.argument == AllArgument
      ensures follow.title == FollowTitle && follow.argument == FollowArgument
      ensures values == [all, follow]
    {
      all := new GitPushTagMode(AllTitle, AllArgument);
      follow := new GitPushTagMode(FollowTitle, FollowArgument);
      values := [all, follow];
    }
  }

  /** Read from freshly initialised modes: the default mode is a new object
      equal in content to `ALL`, and `values` lists `ALL` then `FOLLOW`. */
  method DefaultModeIsAll() returns (title: string, argument: string, titles: seq<string>, arguments: seq<string>)
    ensures title == "All" && argument == "--tags"
    ensures titles == ["All", "Current Branch"] && arguments == ["--tags", "--follow-tags"]
  {
    var modes := new TagModes();
    var mode := new GitPushTagMode.CopyOfAll(modes);
    title, argument := mode.title, mode.argument;
    titles := [modes.values[0].title, modes.values[1].title];
    arguments := [modes.values[0].argument, modes.values[1].argument];
  }
}
