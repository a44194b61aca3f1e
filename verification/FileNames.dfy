/** What the simulator takes from the name of a file: its type, the port code and the visit. */
module FileNames {
  import opened Cargo
  import opened CraneText
  import opened ShipPlanFile

  const CARGO_DATA := "cargo_data"

  /** The last place of a character, or NOT_FOUND. */
  function LastOf(s: string, ch: char): (k: int)
    ensures k == NOT_FOUND || 0 <= k < |s|
    ensures k == NOT_FOUND ==> forall j :: 0 <= j < |s| ==> s[j] != ch
    ensures k != NOT_FOUND ==> s[k] == ch && forall j :: k < j < |s| ==> s[j] != ch
  {
    if s == "" then NOT_FOUND
    else if s[|s| - 1] == ch then |s| - 1
    else LastOf(s[..|s| - 1], ch)
  }

  function Before(s: string, ch: char): string {
    if LastOf(s, ch) == NOT_FOUND then s else s[..LastOf(s, ch)]
  }

  function After(s: string, ch: char): string {
    if LastOf(s, ch) == NOT_FOUND then s else s[LastOf(s, ch) + 1..]
  }

  /** Cutting a name off at its last mark undoes adding what follows the mark. */
  lemma BeforeAdded(front: string, ch: char, rest: string)
    requires ch !in rest
    ensures Before(front + [ch] + rest, ch) == front && After(front + [ch] + rest, ch) == rest
  {
    var all := front + [ch] + rest;
    LastOfBoth(front + [ch], rest, ch);
    assert LastOf(rest, ch) == NOT_FOUND && LastOf(front + [ch], ch) == |front|;
    assert all[..|front|] == front && all[|front| + 1..] == rest;
  }

  lemma BeforeNothing(name: string, ch: char)
    requires ch !in name
    ensures Before(name, ch) == name && After(name, ch) == name
  {
    assert LastOf(name, ch) == NOT_FOUND;
  }

  function FileType(name: string): string {
    if LastOf(name, '.') == NOT_FOUND then "" else After(name, '.')
  }

  /** The name in a path, without its type. A dot in the folder only does not end the name. */
  function NameIn(path: string): string {
    var from, dot := LastOf(path, '/') + 1, LastOf(path, '.');
    if from <= dot then path[from..dot] else path[from..]
  }

  /** The port code in the name of a cargo file is all before its last underscore. */
  function CodeIn(path: string): string {
    Before(NameIn(path), '_')
  }

  /** The number of the visit is what follows that underscore, or -1 if that is no number. */
  function VisitIn(name: string): int {
    var number := After(name, '_');
    if IsNumber(number) then Stoi(number).value else -1
  }

  function PathOf(folder: string, name: string): string {
    folder + "/" + name
  }

  lemma {:induction false} LastOfBoth(a: string, b: string, ch: char)
    ensures LastOf(a + b, ch) == if LastOf(b, ch) == NOT_FOUND then LastOf(a, ch) else |a| + LastOf(b, ch)
    decreases |b|
  {
    if b == "" {
      assert a + b == a;
    } else {
      assert (a + b)[..|a + b| - 1] == a + b[..|b| - 1];
      LastOfBoth(a, b[..|b| - 1], ch);
    }
  }

  /** Whatever the folder is called, the name found in the path of one of its files is the name
      of that file. */
  lemma NameInFolder(folder: string, name: string)
    requires '/' !in name && '.' in name
    ensures NameIn(PathOf(folder, name)) == Before(name, '.')
  {
    var front := folder + "/";
    LastOfBoth(front, name, '/');
    LastOfBoth(front, name, '.');
    assert LastOf(name, '/') == NOT_FOUND && LastOf(front, '/') == |folder|;
    SliceOfBoth(front, name, LastOf(name, '.'));
  }

  lemma SliceOfBoth(a: string, b: string, n: nat)
    requires n <= |b|
    ensures (a + b)[|a|..|a| + n] == b[..n]
  {
  }
}
