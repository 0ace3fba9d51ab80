/**
 * The argument vector that the main window hands to rsync when Run Sync is
 * clicked: one switch per checked option, in a fixed order, followed by the
 * source and the destination path.
 */
module SyncArguments {

  /** The seven option checkboxes of the main window, read as plain values. */
  datatype Options = Options(
    archive: bool,
    verbose: bool,
    progress: bool,
    delete: bool,
    sizeOnly: bool,
    ignoreExisting: bool,
    skipNewer: bool)

  /** The checkbox state of a freshly built window: Verbose and Progress are checked. */
  const InitialOptions := Options(false, true, true, false, false, false, false)

  /** Number of option checkboxes, and so of distinct switches. */
  const NumSwitches := 7

  /** The i-th checkbox, in the order in which the slot tests them. */
  function Checked(o: Options, i: nat): bool
    requires i < NumSwitches
  {
    if i == 0 then o.archive
    else if i == 1 then o.verbose
    else if i == 2 then o.progress
    else if i == 3 then o.delete
    else if i == 4 then o.sizeOnly
    else if i == 5 then o.ignoreExisting
    else o.skipNewer
  }

  /** The rsync switch that the i-th checkbox contributes. */
  function SwitchName(i: nat): string
    requires i < NumSwitches
  {
    if i == 0 then "-a"
    else if i == 1 then "-v"
    else if i == 2 then "--progress"
    else if i == 3 then "--delete"
    else if i == 4 then "--size-only"
    else if i == 5 then "--ignore-existing"
    else "--update"
  }

  /** Position of a switch in the fixed order; -1 for any other argument. */
  function SwitchIndex(arg: string): int
  {
    if arg == "-a" then 0
    else if arg == "-v" then 1
    else if arg == "--progress" then 2
    else if arg == "--delete" then 3
    else if arg == "--size-only" then 4
    else if arg == "--ignore-existing" then 5
    else if arg == "--update" then 6
    else -1
  }

  /** Number of checked options. */
  function NumChecked(o: Options): nat
  {
    (if o.archive then 1 else 0) + (if o.verbose then 1 else 0) +
    (if o.progress then 1 else 0) + (if o.delete then 1 else 0) +
    (if o.sizeOnly then 1 else 0) + (if o.ignoreExisting then 1 else 0) +
    (if o.skipNewer then 1 else 0)
  }

  /** Number of occurrences of x in s. */
  function Occurrences(s: seq<string>, x: string): nat
  {
    if s == [] then 0 else (if s[0] == x then 1 else 0) + Occurrences(s[1..], x)
  }

  /** The switches contributed by the first n checkboxes, in checkbox order. */
  function SwitchesUpTo(o: Options, n: nat): seq<string>
    requires n <= NumSwitches
  {
    if n == 0 then []
    else SwitchesUpTo(o, n - 1) + (if Checked(o, n - 1) then [SwitchName(n - 1)] else [])
  }

  /** The switches of all checked options. */
  function Switches(o: Options): seq<string>
  {
    SwitchesUpTo(o, NumSwitches)
  }

  /** The complete argument vector: the switches, then the two paths. */
  function ArgumentVector(o: Options, source: string, destination: string): seq<string>
  {
    Switches(o) + [source, destination]
  }

  /**
   * The Run Sync slot's construction of the argument list: one conditional
   * append per checkbox, then the two paths.
   */
  method BuildArguments(o: Options, source: string, destination: string)
    returns (arguments: seq<string>)
    ensures arguments == ArgumentVector(o, source, destination)
  {
    arguments := [];
    if o.archive { arguments := arguments + ["-a"]; }
    assert arguments == SwitchesUpTo(o, 1);
    if o.verbose { arguments := arguments + ["-v"]; }
    assert arguments == SwitchesUpTo(o, 2);
    if o.progress { arguments := arguments + ["--progress"]; }
    assert arguments == SwitchesUpTo(o, 3);
    if o.delete { arguments := arguments + ["--delete"]; }
    assert arguments == SwitchesUpTo(o, 4);
    if o.sizeOnly { arguments := arguments + ["--size-only"]; }
    assert arguments == SwitchesUpTo(o, 5);
    if o.ignoreExisting { arguments := arguments + ["--ignore-existing"]; }
    assert arguments == SwitchesUpTo(o, 6);
    if o.skipNewer { arguments := arguments + ["--update"]; }
    assert arguments == Switches(o);
    arguments := arguments + [source, destination];
  }

  /** The switch table has no repeated entry, and SwitchIndex inverts SwitchName. */
  lemma SwitchIndexOfName(i: nat)
    requires i < NumSwitches
    ensures SwitchIndex(SwitchName(i)) == i
  {
  }

  /** Different checkboxes contribute different switches. */
  lemma SwitchNamesDistinct(i: nat, j: nat)
    requires i < NumSwitches && j < NumSwitches
    ensures SwitchName(i) == SwitchName(j) <==> i == j
  {
  }

  lemma OccurrencesSingleton(x: string, y: string)
    ensures Occurrences([x], y) == if x == y then 1 else 0
  {
  }

  /** The list always ends with exactly the source and the destination, after the switches. */
  lemma ArgumentsEndWithPaths(o: Options, source: string, destination: string)
    ensures var args := ArgumentVector(o, source, destination);
      |args| >= 2 && args[|args| - 2] == source && args[|args| - 1] == destination &&
      args[..|args| - 2] == Switches(o)
  {
  }

  lemma {:induction false} OccurrencesAppend(s: seq<string>, t: seq<string>, x: string)
    ensures Occurrences(s + t, x) == Occurrences(s, x) + Occurrences(t, x)
  {
    if s == [] {
      assert s + t == t;
    } else {
      assert (s + t)[1..] == s[1..] + t;
      OccurrencesAppend(s[1..], t, x);
    }
  }

  lemma {:induction false} OccurrencesPositive(s: seq<string>, x: string)
    ensures Occurrences(s, x) > 0 <==> x in s
  {
    if s != [] {
      OccurrencesPositive(s[1..], x);
      assert s == [s[0]] + s[1..];
    }
  }

  /** Appending y when b holds adds one occurrence of x exactly when b holds and y is x. */
  lemma OccurrencesStep(s: seq<string>, b: bool, y: string, x: string)
    ensures Occurrences(s + (if b then [y] else []), x) == Occurrences(s, x) + if b && y == x then 1 else 0
  {
    if b {
      OccurrencesAppend(s, [y], x);
      OccurrencesSingleton(y, x);
    } else {
      assert s + [] == s;
    }
  }

  /** Among the first n checkboxes, switch j occurs once if it is one of them and checked, else never. */
  lemma {:induction false} OccurrencesInSwitchesUpTo(o: Options, n: nat, j: nat)
    requires n <= NumSwitches && j < NumSwitches
    ensures Occurrences(SwitchesUpTo(o, n), SwitchName(j)) == if j < n && Checked(o, j) then 1 else 0
  {
    if n > 0 {
      OccurrencesInSwitchesUpTo(o, n - 1, j);
      OccurrencesStep(SwitchesUpTo(o, n - 1), Checked(o, n - 1), SwitchName(n - 1), SwitchName(j));
      SwitchNamesDistinct(n - 1, j);
    }
  }

  /**
   * Each of the seven switches appears exactly once when its checkbox is
   * checked and not at all otherwise.
   */
  lemma SwitchOccursIffChecked(o: Options, i: nat)
    requires i < NumSwitches
    ensures Occurrences(Switches(o), SwitchName(i)) == if Checked(o, i) then 1 else 0
    ensures SwitchName(i) in Switches(o) <==> Checked(o, i)
  {
    OccurrencesInSwitchesUpTo(o, NumSwitches, i);
    OccurrencesPositive(Switches(o), SwitchName(i));
  }

  /** The first n checkboxes contribute only switches of position below n, in strictly increasing order. */
  lemma {:induction false} SwitchesUpToOrdered(o: Options, n: nat)
    requires n <= NumSwitches
    ensures forall k :: 0 <= k < |SwitchesUpTo(o, n)| ==>
      0 <= SwitchIndex(SwitchesUpTo(o, n)[k]) < n
    ensures forall p, q :: 0 <= p < q < |SwitchesUpTo(o, n)| ==>
      SwitchIndex(SwitchesUpTo(o, n)[p]) < SwitchIndex(SwitchesUpTo(o, n)[q])
  {
    if n > 0 {
      SwitchesUpToOrdered(o, n - 1);
      SwitchIndexOfName(n - 1);
      var before := SwitchesUpTo(o, n - 1);
      var s := SwitchesUpTo(o, n);
      if Checked(o, n - 1) {
        assert s == before + [SwitchName(n - 1)];
        assert forall k :: 0 <= k < |before| ==> s[k] == before[k];
      } else {
        assert s == before;
      }
    }
  }

  /**
   * Every entry before the two paths is one of the seven switches, and the
   * present switches appear in the fixed order -a, -v, --progress, --delete,
   * --size-only, --ignore-existing, --update.
   */
  lemma SwitchesInFixedOrder(o: Options, source: string, destination: string)
    ensures var args := ArgumentVector(o, source, destination);
      forall k :: 0 <= k < |args| - 2 ==> 0 <= SwitchIndex(args[k]) < NumSwitches
    ensures var args := ArgumentVector(o, source, destination);
      forall p, q :: 0 <= p < q < |args| - 2 ==>
        0 <= SwitchIndex(args[p]) < SwitchIndex(args[q]) < NumSwitches
  {
    SwitchesUpToOrdered(o, NumSwitches);
    var args := ArgumentVector(o, source, destination);
    assert forall k :: 0 <= k < |args| - 2 ==> args[k] == Switches(o)[k];
  }

  /** The argument list holds (number of checked options) + 2 entries. */
  lemma ArgumentCount(o: Options, source: string, destination: string)
    ensures |ArgumentVector(o, source, destination)| == NumChecked(o) + 2
  {
    assert |SwitchesUpTo(o, 1)| == (if o.archive then 1 else 0);
    assert |SwitchesUpTo(o, 2)| == |SwitchesUpTo(o, 1)| + (if o.verbose then 1 else 0);
    assert |SwitchesUpTo(o, 3)| == |SwitchesUpTo(o, 2)| + (if o.progress then 1 else 0);
    assert |SwitchesUpTo(o, 4)| == |SwitchesUpTo(o, 3)| + (if o.delete then 1 else 0);
    assert |SwitchesUpTo(o, 5)| == |SwitchesUpTo(o, 4)| + (if o.sizeOnly then 1 else 0);
    assert |SwitchesUpTo(o, 6)| == |SwitchesUpTo(o, 5)| + (if o.ignoreExisting then 1 else 0);
    assert |SwitchesUpTo(o, 7)| == |SwitchesUpTo(o, 6)| + (if o.skipNewer then 1 else 0);
  }

  /** Which options a list of switches turns on, read the way rsync reads them. */
  function OptionsOf(switches: seq<string>): Options
  {
    Options(
      "-a" in switches, "-v" in switches, "--progress" in switches,
      "--delete" in switches, "--size-only" in switches,
      "--ignore-existing" in switches, "--update" in switches)
  }

  /** A request to rsync recovered from its argument vector. */
  datatype Request = Request(options: Options, source: string, destination: string)

  datatype Option<T> = None | Some(value: T)

  /** Splits an argument vector back into options and paths; None if it has fewer than two entries. */
  function ParseArguments(args: seq<string>): Option<Request>
  {
    if |args| < 2 then None
    else Some(Request(OptionsOf(args[..|args| - 2]), args[|args| - 2], args[|args| - 1]))
  }

  /** Reading the switches back recovers exactly the checkbox state. */
  lemma OptionsOfSwitches(o: Options)
    ensures OptionsOf(Switches(o)) == o
  {
    SwitchOccursIffChecked(o, 0);
    SwitchOccursIffChecked(o, 1);
    SwitchOccursIffChecked(o, 2);
    SwitchOccursIffChecked(o, 3);
    SwitchOccursIffChecked(o, 4);
    SwitchOccursIffChecked(o, 5);
    SwitchOccursIffChecked(o, 6);
  }

  /** The argument vector determines the options and paths it was built from. */
  lemma ParseArgumentVector(o: Options, source: string, destination: string)
    ensures ParseArguments(ArgumentVector(o, source, destination)) == Some(Request(o, source, destination))
  {
    ArgumentsEndWithPaths(o, source, destination);
    OptionsOfSwitches(o);
  }

  /** Different checkbox states or paths never produce the same argument vector. */
  lemma ArgumentVectorInjective(o1: Options, s1: string, d1: string, o2: Options, s2: string, d2: string)
    requires ArgumentVector(o1, s1, d1) == ArgumentVector(o2, s2, d2)
    ensures o1 == o2 && s1 == s2 && d1 == d2
  {
    ParseArgumentVector(o1, s1, d1);
    ParseArgumentVector(o2, s2, d2);
  }

  /** With the checkboxes as a new window shows them, rsync gets -v --progress and the two paths. */
  lemma InitialArguments(source: string, destination: string)
    ensures ArgumentVector(InitialOptions, source, destination) == ["-v", "--progress", source, destination]
  {
  }
}
