/** Git stash handling of the git4idea plugin: parsing the output of
    `git stash list` into stash records, and unstashing a series of roots
    with its fixed order of error checks. Running git, refreshing files and
    showing notifications are outside the model: each root's command
    outcome is an input, and what the loop does is recorded as effects. */
module GitStash {
  import opened Text

  /** One entry of `git stash list`: the stash reference (`stash@{0}`),
      the branch it was made on when the line says so, and its message. */
  datatype StashInfo = StashInfo(stash: string, branch: Option<string>, message: string)

  /** What a finished git command gives back. */
  datatype GitCommandResult = GitCommandResult(success: bool, output: seq<string>, errorOutput: seq<string>)

  /** The checked exception `throwOnError` raises for a failed command. */
  datatype VcsException = VcsException(errorOutput: seq<string>)

  datatype Result<+T> = Success(value: T) | Failure(error: VcsException)

  /** Position of the first `c` in `s`, if any. */
  function IndexOf(s: string, c: char): (r: Option<nat>)
    ensures r.Some? ==> r.value < |s| && s[r.value] == c
    ensures r.Some? ==> forall i :: 0 <= i < r.value ==> s[i] != c
    ensures r.None? <==> c !in s
  {
    if |s| == 0 then None
    else if s[0] == c then Some(0)
    else match IndexOf(s[1..], c)
      case None => None
      case Some(i) => Some(i + 1)
  }

  /** Kotlin's `split(c, limit = n)` for n >= 1: cut at the first n - 1
      occurrences of `c`; the last part keeps any further ones. */
  function Split(s: string, c: char, limit: nat): (parts: seq<string>)
    requires limit >= 1
    ensures 1 <= |parts| <= limit
    ensures forall k :: 0 <= k < |parts| - 1 ==> c !in parts[k]
    decreases limit
  {
    if limit == 1 then [s]
    else match IndexOf(s, c)
      case None => [s]
      case Some(i) => [s[..i]] + Split(s[i + 1..], c, limit - 1)
  }

  /** Inverse of `Split`: put the separators back. */
  function JoinWith(parts: seq<string>, c: char): string
    requires |parts| >= 1
  {
    if |parts| == 1 then parts[0] else parts[0] + [c] + JoinWith(parts[1..], c)
  }

  lemma SplitCons(s: string, c: char, limit: nat, i: nat)
    requires limit > 1 && IndexOf(s, c) == Some(i)
    ensures Split(s, c, limit) == [s[..i]] + Split(s[i + 1..], c, limit - 1)
  {
  }

  /** A sequence is its prefix, the element at `i`, and its suffix. */
  lemma CutAt<T>(s: seq<T>, i: nat)
    requires i < |s|
    ensures s == s[..i] + [s[i]] + s[i + 1..]
  {
  }

  lemma JoinWithCons(head: string, tail: seq<string>, c: char)
    requires |tail| >= 1
    ensures JoinWith([head] + tail, c) == head + [c] + JoinWith(tail, c)
  {
    assert ([head] + tail)[1..] == tail;
  }

  lemma {:induction false} SplitJoin(s: string, c: char, limit: nat)
    requires limit >= 1
    ensures JoinWith(Split(s, c, limit), c) == s
    decreases limit
  {
    var idx := IndexOf(s, c);
    if limit > 1 && idx.Some? {
      var i := idx.value;
      SplitCons(s, c, limit, i);
      JoinWithCons(s[..i], Split(s[i + 1..], c, limit - 1), c);
      SplitJoin(s[i + 1..], c, limit - 1);
      CutAt(s, i);
    }
  }

  /** Kotlin's `String.trim()`. */
  function KTrim(s: string): string {
    Trim(s, IsKotlinWhitespace)
  }

  /** One line of `git stash list`, split on ':' at most twice. A line with
      no ':' is logged and gives no record; with one ':' there is no branch;
      the stash reference is kept untrimmed. */
  function ParseStashLine(line: string): (r: Option<StashInfo>)
    ensures r.Some? ==> IndexOf(line, ':') == Some(|r.value.stash|) && r.value.stash == line[..|r.value.stash|]
    ensures r.Some? ==> (r.value.branch.None? <==> ':' !in line[|r.value.stash| + 1..])
  {
    var parts := Split(line, ':', 3);
    assert |parts| >= 2 ==> IndexOf(line, ':').Some? by {
      if IndexOf(line, ':').None? { assert parts == [line]; }
    }
    if |parts| < 2 then None
    else if |parts| == 2 then Some(StashInfo(parts[0], None, KTrim(parts[1])))
    else Some(StashInfo(parts[0], Some(KTrim(parts[1])), KTrim(parts[2])))
  }

  /** A line gives a record exactly when it contains a colon. */
  lemma ParseStashLineDefined(line: string)
    ensures ParseStashLine(line).Some? <==> ':' in line
  {
    var idx := IndexOf(line, ':');
    if idx.Some? {
      var i := idx.value;
      assert Split(line, ':', 3) == [line[..i]] + Split(line[i + 1..], ':', 2);
    }
  }

  lemma FirstIndex(s: string, c: char, i: nat)
    requires i < |s| && s[i] == c && c !in s[..i]
    ensures IndexOf(s, c) == Some(i)
  {
    forall k | 0 <= k < i ensures s[k] != c {
      assert s[k] == s[..i][k];
    }
  }

  /** A line with exactly one colon, at `i`: no branch, the trimmed rest
      as the message, the untrimmed head as the stash reference. */
  lemma ParseOneColon(line: string, i: nat)
    requires i < |line| && line[i] == ':' && ':' !in line[..i] && ':' !in line[i + 1..]
    ensures ParseStashLine(line) == Some(StashInfo(line[..i], None, KTrim(line[i + 1..])))
  {
    FirstIndex(line, ':', i);
    var rest := line[i + 1..];
    assert Split(rest, ':', 2) == [rest];
    assert Split(line, ':', 3) == [line[..i], rest];
  }

  /** Splitting cuts at the first separator, and the rest is split with
      one part fewer. */
  lemma SplitAtFirst(s: string, c: char, limit: nat, i: nat)
    requires limit >= 2 && i < |s| && s[i] == c && c !in s[..i]
    ensures Split(s, c, limit) == [s[..i]] + Split(s[i + 1..], c, limit - 1)
  {
    FirstIndex(s, c, i);
  }

  /** After the first colon, the rest splits in two at the second. */
  lemma SplitRestAtColon(line: string, i: nat, j: nat)
    requires i < j < |line| && line[j] == ':' && ':' !in line[i + 1..j]
    ensures Split(line[i + 1..], ':', 2) == [line[i + 1..j], line[j + 1..]]
  {
    var rest := line[i + 1..];
    var k := j - i - 1;
    assert rest[..k] == line[i + 1..j];
    assert rest[k + 1..] == line[j + 1..];
    SplitAtFirst(rest, ':', 2, k);
  }

  /** The three parts of a line whose first two colons are at `i` and `j`. */
  lemma SplitTwoColons(line: string, i: nat, j: nat)
    requires i < j < |line| && line[i] == ':' && line[j] == ':'
    requires ':' !in line[..i] && ':' !in line[i + 1..j]
    ensures Split(line, ':', 3) == [line[..i], line[i + 1..j], line[j + 1..]]
  {
    SplitAtFirst(line, ':', 3, i);
    SplitRestAtColon(line, i, j);
  }

  /** A line whose first two colons are at `i` and `j`: the branch lies
      between them and the message, which may hold more colons, after. */
  lemma ParseTwoColons(line: string, i: nat, j: nat)
    requires i < j < |line| && line[i] == ':' && line[j] == ':'
    requires ':' !in line[..i] && ':' !in line[i + 1..j]
    ensures ParseStashLine(line) == Some(StashInfo(line[..i], Some(KTrim(line[i + 1..j])), KTrim(line[j + 1..])))
  {
    SplitTwoColons(line, i, j);
  }

  /** The records of a whole `git stash list` output, in line order. */
  function ParseStashList(lines: seq<string>): seq<StashInfo> {
    if lines == [] then []
    else
      var rest := ParseStashList(lines[..|lines| - 1]);
      match ParseStashLine(lines[|lines| - 1])
      case None => rest
      case Some(info) => rest + [info]
  }

  /** Number of lines that contain a colon. */
  function CountWithColon(lines: seq<string>): nat {
    if lines == [] then 0
    else CountWithColon(lines[..|lines| - 1]) + (if ':' in lines[|lines| - 1] then 1 else 0)
  }

  lemma {:induction false} ParseStashListLength(lines: seq<string>)
    ensures |ParseStashList(lines)| == CountWithColon(lines)
  {
    if lines != [] {
      ParseStashListLength(lines[..|lines| - 1]);
      ParseStashLineDefined(lines[|lines| - 1]);
    }
  }

  /** Records keep the order of their lines: parsing a concatenation is the
      concatenation of the parses. */
  lemma {:induction false} ParseStashListAppend(a: seq<string>, b: seq<string>)
    ensures ParseStashList(a + b) == ParseStashList(a) + ParseStashList(b)
    decreases |b|
  {
    if b != [] {
      var b' := b[..|b| - 1];
      assert (a + b)[..|a + b| - 1] == a + b';
      assert (a + b)[|a + b| - 1] == b[|b| - 1];
      ParseStashListAppend(a, b');
    } else {
      assert a + b == a;
    }
  }

  /** `loadStashStack(project, root)`: a failed `git stash list` raises before
      any line is read; otherwise every line is parsed in order. */
  method LoadStashStack(output: GitCommandResult) returns (r: Result<seq<StashInfo>>)
    ensures !output.success ==> r == Failure(VcsException(output.errorOutput))
    ensures output.success ==> r == Success(ParseStashList(output.output))
  {
    if !output.success {
      return Failure(VcsException(output.errorOutput));
    }
    var result: seq<StashInfo> := [];
    var lines := output.output;
    for n := 0 to |lines|
      invariant result == ParseStashList(lines[..n])
    {
      var line := lines[n];
      var parts := Split(line, ':', 3);
      if |parts| < 2 {
        // logged as an unparsable record and skipped
      } else if |parts| == 2 {
        result := result + [StashInfo(parts[0], None, KTrim(parts[1]))];
      } else {
        result := result + [StashInfo(parts[0], Some(KTrim(parts[1])), KTrim(parts[2]))];
      }
      assert lines[..n + 1][..n] == lines[..n];
    }
    assert lines[..|lines|] == lines;
    return Success(result);
  }

  lemma TakeOneMore<T>(s: seq<T>, k: nat)
    requires k < |s|
    ensures s[..k + 1] == s[..k] + [s[k]]
  {
  }

  /** The deprecated overload: hands each loaded record to a consumer, in
      order; the consumer's calls are returned as the sequence it saw. */
  method ForEachStash(output: GitCommandResult) returns (consumed: seq<StashInfo>, error: Option<VcsException>)
    ensures !output.success ==> consumed == [] && error == Some(VcsException(output.errorOutput))
    ensures output.success ==> consumed == ParseStashList(output.output) && error == None
  {
    consumed, error := [], None;
    var loaded := LoadStashStack(output);
    match loaded
    case Failure(e) =>
      error := Some(e);
    case Success(stashes) =>
      for k := 0 to |stashes|
        invariant consumed == stashes[..k]
      {
        TakeOneMore(stashes, k);
        consumed := consumed + [stashes[k]];
      }
      assert stashes[..|stashes|] == stashes;
  }

  // ---------------------------------------------------------------------
  // Unstash

  type Root = string

  /** What the three output detectors saw while `git stash pop/apply` ran
      in one root, whether the command succeeded, and what the merge dialog
      answers if it is shown. */
  datatype RootRun = RootRun(
    root: Root,
    mergeConflict: bool,
    untrackedFilesOverwritten: bool,
    localChangesOverwritten: bool,
    success: bool,
    conflictsResolved: bool)

  /** Observable steps of the unstash loop. */
  datatype Effect =
    | RunCommand(root: Root)
    | Refresh(root: Root)
    | MergeDialog(root: Root)
    | UntrackedFilesNotification(root: Root)
    | LocalChangesNotification(root: Root)
    | UnstashFailedNotification(root: Root)

  /** The outcome of the checks on one root, first match wins. */
  datatype Check =
    | ConflictsResolved
    | ConflictsUnresolved
    | UntrackedFilesOverwritten
    | LocalChangesOverwritten
    | Failed
    | Succeeded

  /** The checks on one root in their fixed order: merge conflict, then
      untracked files, then local changes, then the command's own status. */
  function CheckRoot(run: RootRun): (c: Check)
    ensures (c == ConflictsResolved || c == ConflictsUnresolved) <==> run.mergeConflict
    ensures c == ConflictsResolved <==> run.mergeConflict && run.conflictsResolved
    ensures c == UntrackedFilesOverwritten <==> !run.mergeConflict && run.untrackedFilesOverwritten
    ensures c == LocalChangesOverwritten <==>
              !run.mergeConflict && !run.untrackedFilesOverwritten && run.localChangesOverwritten
    ensures c == Failed <==>
              !run.mergeConflict && !run.untrackedFilesOverwritten && !run.localChangesOverwritten && !run.success
  {
    if run.mergeConflict then
      (if run.conflictsResolved then ConflictsResolved else ConflictsUnresolved)
    else if run.untrackedFilesOverwritten then UntrackedFilesOverwritten
    else if run.localChangesOverwritten then LocalChangesOverwritten
    else if !run.success then Failed
    else Succeeded
  }

  /** Whether the loop continues after this root: only after a success or
      a resolved conflict. */
  predicate Proceeds(run: RootRun) {
    CheckRoot(run) == ConflictsResolved || CheckRoot(run) == Succeeded
  }

  /** The user-visible reaction to a check. */
  function Reaction(root: Root, c: Check): seq<Effect> {
    match c
    case ConflictsResolved | ConflictsUnresolved => [MergeDialog(root)]
    case UntrackedFilesOverwritten => [UntrackedFilesNotification(root)]
    case LocalChangesOverwritten => [LocalChangesNotification(root)]
    case Failed => [UnstashFailedNotification(root)]
    case Succeeded => []
  }

  /** Everything that happens for one root: the command runs, the root is
      refreshed, and then the reaction to the first matching check. */
  function RootEffects(run: RootRun): seq<Effect> {
    [RunCommand(run.root), Refresh(run.root)] + Reaction(run.root, CheckRoot(run))
  }

  /** Effects of unstashing `runs[n..]` in order, stopping after the first
      root that does not let the loop continue. */
  function UnstashEffectsFrom(runs: seq<RootRun>, n: nat): seq<Effect>
    requires n <= |runs|
    decreases |runs| - n
  {
    if n == |runs| then []
    else RootEffects(runs[n]) + (if Proceeds(runs[n]) then UnstashEffectsFrom(runs, n + 1) else [])
  }

  /** Effects of unstashing all the roots. */
  function UnstashEffects(runs: seq<RootRun>): seq<Effect> {
    UnstashEffectsFrom(runs, 0)
  }

  /** How many roots the loop reaches from `n` on: up to and including the
      first that stops it. */
  function ReachedFrom(runs: seq<RootRun>, n: nat): (k: nat)
    requires n <= |runs|
    ensures n <= k <= |runs|
    ensures forall j :: n <= j < k - 1 ==> Proceeds(runs[j])
    ensures k < |runs| ==> n < k && !Proceeds(runs[k - 1])
    decreases |runs| - n
  {
    if n == |runs| then n
    else if !Proceeds(runs[n]) then n + 1
    else ReachedFrom(runs, n + 1)
  }

  /** Effects of the roots `runs[n..k]`, all of them, one after another. */
  function AllSteps(runs: seq<RootRun>, n: nat, k: nat): seq<Effect>
    requires n <= k <= |runs|
    decreases k - n
  {
    if n == k then [] else RootEffects(runs[n]) + AllSteps(runs, n + 1, k)
  }

  /** Later roots are untouched: the effects are exactly those of the
      reached roots, each in full. */
  lemma {:induction false} UnstashStopsAfterReached(runs: seq<RootRun>, n: nat)
    requires n <= |runs|
    ensures UnstashEffectsFrom(runs, n) == AllSteps(runs, n, ReachedFrom(runs, n))
    decreases |runs| - n
  {
    if n < |runs| {
      if Proceeds(runs[n]) {
        UnstashStopsAfterReached(runs, n + 1);
      } else {
        assert AllSteps(runs, n + 1, n + 1) == [];
      }
    }
  }

  /** Every reached root has been refreshed. */
  lemma {:induction false} ReachedRootsRefreshed(runs: seq<RootRun>, n: nat, j: nat)
    requires n <= |runs| && n <= j < ReachedFrom(runs, n)
    ensures Refresh(runs[j].root) in UnstashEffectsFrom(runs, n)
    decreases j - n
  {
    var here := RootEffects(runs[n]);
    if j == n {
      assert here[1] == Refresh(runs[n].root);
      assert Refresh(runs[j].root) in here;
    } else {
      assert Proceeds(runs[n]);
      assert UnstashEffectsFrom(runs, n) == here + UnstashEffectsFrom(runs, n + 1);
      ReachedRootsRefreshed(runs, n + 1, j);
    }
  }

  /** A root that stops the loop hides every root after it: cutting the
      list right after it changes nothing. */
  lemma {:induction false} StopIgnoresLaterRoots(runs: seq<RootRun>, i: nat, n: nat)
    requires n <= i < |runs| && !Proceeds(runs[i])
    ensures UnstashEffectsFrom(runs, n) == UnstashEffectsFrom(runs[..i + 1], n)
    decreases i - n
  {
    var cut := runs[..i + 1];
    assert cut[n] == runs[n];
    if n < i {
      StopIgnoresLaterRoots(runs, i, n + 1);
    }
  }

  lemma AppendAssoc<T>(a: seq<T>, b: seq<T>, c: seq<T>)
    ensures (a + b) + c == a + (b + c)
  {
  }

  /** The body of the unstash loop for one root: run, refresh, and react
      to the first matching check. `proceed` is false where the source
      returns from the whole loop. */
  method UnstashStep(run: RootRun) returns (effects: seq<Effect>, proceed: bool)
    ensures effects == RootEffects(run)
    ensures proceed == Proceeds(run)
  {
    effects := [RunCommand(run.root), Refresh(run.root)];
    proceed := true;
    if run.mergeConflict {
      effects := effects + [MergeDialog(run.root)];
      if !run.conflictsResolved {
        proceed := false;
      }
    } else if run.untrackedFilesOverwritten {
      effects := effects + [UntrackedFilesNotification(run.root)];
      proceed := false;
    } else if run.localChangesOverwritten {
      effects := effects + [LocalChangesNotification(run.root)];
      proceed := false;
    } else if !run.success {
      effects := effects + [UnstashFailedNotification(run.root)];
      proceed := false;
    }
  }

  /** `unstash(project, roots, handlerProvider, conflictResolver)`: the roots
      one by one, returning at the first that does not let the loop go on. */
  method Unstash(runs: seq<RootRun>) returns (effects: seq<Effect>)
    ensures effects == UnstashEffects(runs)
  {
    effects := [];
    for n := 0 to |runs|
      invariant effects + UnstashEffectsFrom(runs, n) == UnstashEffects(runs)
    {
      var rootEffects, proceed := UnstashStep(runs[n]);
      AppendAssoc(effects, rootEffects, UnstashEffectsFrom(runs, n + 1));
      effects := effects + rootEffects;
      if !proceed {
        return;
      }
    }
  }

  /** `unstash(project, root, handler, conflictResolver)`: the list version
      on the single root. */
  method UnstashRoot(run: RootRun) returns (effects: seq<Effect>)
    ensures effects == RootEffects(run)
  {
    effects := Unstash([run]);
    assert UnstashEffectsFrom([run], 1) == [];
    assert RootEffects(run) + [] == RootEffects(run);
  }
}
