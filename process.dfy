/** The Proxifier process probe and driver (src/core/process.py): the process
    is recognised by the base name of its executable only, case-insensitively,
    inside the output of a filtered task list; the kill command names that
    base name; the launch command quotes the full path. */
module Process {
  import opened Common
  import opened System

  /** Path separators of Windows paths (`ntpath`). */
  predicate IsSep(c: char)
  {
    c == '\\' || c == '/'
  }

  /** The text after the last separator. */
  function Tail(s: string): string
  {
    if s == [] then []
    else if IsSep(s[|s| - 1]) then []
    else Tail(s[..|s| - 1]) + [s[|s| - 1]]
  }

  /** The tail is the longest separator-free suffix. */
  lemma {:induction false} TailIsLastComponent(s: string)
    ensures var r := Tail(s);
      && |r| <= |s| && r == s[|s| - |r|..]
      && (forall i :: 0 <= i < |r| ==> !IsSep(r[i]))
      && (|r| < |s| ==> IsSep(s[|s| - |r| - 1]))
    decreases |s|
  {
    if s != [] && !IsSep(s[|s| - 1]) {
      var init := s[..|s| - 1];
      TailIsLastComponent(init);
      var r := Tail(s);
      assert r == Tail(init) + [s[|s| - 1]];
      assert init[|init| - |Tail(init)|..] + [s[|s| - 1]] == s[|s| - |r|..];
    }
  }

  /** Whether `ntpath.splitdrive` sees a drive letter ("X:") in front. */
  predicate HasDrive(path: string)
  {
    |path| >= 2 && path[1] == ':'
  }

  /** `os.path.basename` on Windows: drop a drive, keep the text after the last
      separator. */
  function Basename(path: string): string
  {
    Tail(if HasDrive(path) then path[2..] else path)
  }

  /** The base name is a separator-free suffix of the path. */
  lemma BasenameIsSuffix(path: string)
    ensures var name := Basename(path);
      && |name| <= |path| && name == path[|path| - |name|..]
      && forall i :: 0 <= i < |name| ==> !IsSep(name[i])
  {
    var rest := if HasDrive(path) then path[2..] else path;
    TailIsLastComponent(rest);
  }

  /** A separator-free file name after a separator is the whole tail. */
  lemma {:induction false} TailAfterSep(dir: string, sep: char, name: string)
    requires IsSep(sep)
    requires forall i :: 0 <= i < |name| ==> !IsSep(name[i])
    ensures Tail(dir + [sep] + name) == name
    decreases |name|
  {
    var s := dir + [sep] + name;
    if name != [] {
      var init := name[..|name| - 1];
      assert s[..|s| - 1] == dir + [sep] + init;
      TailAfterSep(dir, sep, init);
      assert init + [name[|name| - 1]] == name;
    }
  }

  /** The directory part of a path never affects its base name. */
  lemma BasenameIgnoresDirectory(dir: string, sep: char, name: string)
    requires dir != []
    requires IsSep(sep)
    requires forall i :: 0 <= i < |name| ==> !IsSep(name[i])
    ensures Basename(dir + [sep] + name) == name
  {
    var path := dir + [sep] + name;
    if HasDrive(path) {
      assert |dir| >= 2;
      assert path[2..] == dir[2..] + [sep] + name;
      TailAfterSep(dir[2..], sep, name);
    } else {
      TailAfterSep(dir, sep, name);
    }
  }

  /** Lower-casing a string extended by one character. */
  lemma LowerSnoc(init: string, last: char)
    ensures Lower(init + [last]) == Lower(init) + [LowerChar(last)]
  {
    LowerConcat(init, [last]);
  }

  /** Lower-casing a path and taking its base name commute. */
  lemma {:induction false} TailLower(s: string)
    ensures Tail(Lower(s)) == Lower(Tail(s))
    decreases |s|
  {
    if s != [] {
      var init, last := s[..|s| - 1], s[|s| - 1];
      assert s == init + [last];
      var ls := Lower(s);
      LowerSnoc(init, last);
      assert ls[..|ls| - 1] == Lower(init) && ls[|ls| - 1] == LowerChar(last);
      TailLower(init);
      if IsSep(last) {
        assert IsSep(ls[|ls| - 1]);
        assert Tail(s) == [] && Tail(ls) == [];
      } else {
        assert !IsSep(ls[|ls| - 1]);
        calc {
          Tail(ls);
          Tail(Lower(init)) + [LowerChar(last)];
          Lower(Tail(init)) + [LowerChar(last)];
          { LowerSnoc(Tail(init), last); }
          Lower(Tail(init) + [last]);
          Lower(Tail(s));
        }
      }
    }
  }

  lemma BasenameLower(path: string)
    ensures Basename(Lower(path)) == Lower(Basename(path))
  {
    if HasDrive(path) {
      assert Lower(path)[2..] == Lower(path[2..]);
      TailLower(path[2..]);
    } else {
      TailLower(path);
    }
  }

  /** The filtered task-list query issued by `is_proxifier_running`. */
  function TasklistCommand(path: string): string
  {
    "tasklist /FI \"IMAGENAME eq " + Basename(path) + "\" /NH"
  }

  /** `is_proxifier_running`: the listing is the task-list output, or None when
      the query raised; a raised query reads as "not running". */
  function IsProxifierRunning(path: string, listing: Option<string>): (running: bool)
    ensures listing == None ==> !running
  {
    listing.Some? && Contains(Lower(listing.value), Lower(Basename(path)))
  }

  /** Detection is exactly an occurrence, at some position, of the lower-cased
      base name in the lower-cased listing. */
  lemma DetectionMeansOccurrence(path: string, output: string)
    ensures IsProxifierRunning(path, Some(output)) ==>
      exists k :: OccursAt(Lower(output), Lower(Basename(path)), k)
    ensures (exists k :: OccursAt(Lower(output), Lower(Basename(path)), k)) ==>
      IsProxifierRunning(path, Some(output))
  {
    var hay, name := Lower(output), Lower(Basename(path));
    if Contains(hay, name) {
      ContainsImpliesOccurs(hay, name);
    } else {
      forall k | OccursAt(hay, name, k)
        ensures false
      {
        OccursImpliesContains(hay, name, k);
      }
    }
  }

  /** Only the base name matters: two paths with the same file name in
      different directories are detected alike. */
  lemma DetectionUsesBaseNameOnly(dir1: string, dir2: string, sep: char, name: string, listing: Option<string>)
    requires dir1 != [] && dir2 != []
    requires IsSep(sep)
    requires forall i :: 0 <= i < |name| ==> !IsSep(name[i])
    ensures IsProxifierRunning(dir1 + [sep] + name, listing) == IsProxifierRunning(dir2 + [sep] + name, listing)
  {
    BasenameIgnoresDirectory(dir1, sep, name);
    BasenameIgnoresDirectory(dir2, sep, name);
  }

  /** Detection ignores the letter case of both the path and the listing. */
  lemma DetectionIgnoresCase(path: string, output: string)
    ensures IsProxifierRunning(path, Some(output)) == IsProxifierRunning(Lower(path), Some(Lower(output)))
  {
    BasenameLower(path);
    LowerIdempotent(output);
    LowerIdempotent(Basename(path));
  }

  /** Any listing that mentions the base name, in any letter case and with any
      surrounding text, reads as "running". */
  lemma DetectionFindsListedName(path: string, before: string, after: string)
    ensures IsProxifierRunning(path, Some(before + Basename(path) + after))
  {
    var name := Basename(path);
    LowerConcat(before + name, after);
    LowerConcat(before, name);
    ContainsInfix(Lower(before), Lower(name), Lower(after));
  }

  /** The match is a substring test: when the base name is empty (the path
      ends in a separator) every answered query reads as "running". */
  lemma EmptyNameMatchesEveryListing(path: string, output: string)
    requires |path| > 0 && IsSep(path[|path| - 1])
    ensures IsProxifierRunning(path, Some(output))
  {
    var rest := if HasDrive(path) then path[2..] else path;
    assert rest != [] && IsSep(rest[|rest| - 1]);
  }

  /** `kill_proxifier`'s command: force-kill every image with the base name. */
  function KillCommand(path: string): string
  {
    "taskkill /f /im " + Basename(path)
  }

  /** Killing a path in any directory names the same image. */
  lemma KillCommandNamesFile(dir: string, sep: char, name: string)
    requires dir != []
    requires IsSep(sep)
    requires forall i :: 0 <= i < |name| ==> !IsSep(name[i])
    ensures KillCommand(dir + [sep] + name) == "taskkill /f /im " + name
  {
    BasenameIgnoresDirectory(dir, sep, name);
  }

  /** `start_proxifier` runs the full path, quoted, through the shell. */
  function LaunchCommand(path: string): (cmd: string)
    ensures |cmd| == |path| + 2 && cmd[1..|cmd| - 1] == path
    ensures cmd[0] == '"' && cmd[|cmd| - 1] == '"'
  {
    "\"" + path + "\""
  }

  /** `kill_proxifier`: fire-and-forget through the elevated runner. */
  method KillProxifier(host: Host, path: string)
    modifies host
    ensures host.calls == old(host.calls) + [RunAdmin(KillCommand(path))]
  {
    host.Issue(RunAdmin(KillCommand(path)));
  }

  /** `start_proxifier`: true once the launch call returned, false iff it raised. */
  method StartProxifier(host: Host, path: string, launched: bool) returns (ok: bool)
    modifies host
    ensures host.calls == old(host.calls) + [Spawn(LaunchCommand(path))]
    ensures ok == launched
  {
    host.Issue(Spawn(LaunchCommand(path)));
    ok := launched;
  }

  /** `is_proxifier_running` with its query: the listing is what the query
      printed, or None when it raised. */
  method ProbeProxifier(host: Host, path: string, listing: Option<string>) returns (running: bool)
    modifies host
    ensures host.calls == old(host.calls) + [QueryTasks(TasklistCommand(path))]
    ensures running == IsProxifierRunning(path, listing)
  {
    host.Issue(QueryTasks(TasklistCommand(path)));
    running := IsProxifierRunning(path, listing);
  }
}
