/**
 * The fork settings of Gradle's `Test` task: how many test classes one test
 * process runs before it is replaced (`forkEvery`), how many test processes
 * run at once (`maxParallelForks`), both overridden while debugging, the
 * reasons reported when no test matched the filters, and the choice of the
 * java executable between a toolchain launcher and an explicit `executable`.
 */
module TestForkSettings {
  import opened Wrappers
  import opened Text

  /** Java's `long` and `int`. */
  newtype Long = x: int | -0x8000_0000_0000_0000 <= x < 0x8000_0000_0000_0000
  newtype Int = x: int | -0x8000_0000 <= x < 0x8000_0000

  /** `AbstractCollection.toString`: the elements in brackets, separated by ", ". */
  function CollectionToString(xs: seq<string>): (r: string)
    ensures |r| >= 2 && r[0] == '[' && r[|r| - 1] == ']'
    ensures r[1..|r| - 1] == Join(xs, ", ")
  {
    "[" + Join(xs, ", ") + "]"
  }

  const ForkEveryMessage := "Cannot set forkEvery to a value less than 0."
  const MaxParallelForksMessage := "Cannot set maxParallelForks to a value less than 1."
  const ToolchainMessage := "Must not use `executable` property on `Test` together with `javaLauncher` property"

  /**
   * The part of a `Test` task this model covers. `executable` is the fork
   * options' executable, `javaLauncher` the executable path of the toolchain
   * launcher when the property is present, and `includes`/`excludes` the
   * patterns of its pattern set in the order they were added.
   */
  class TestTask {
    var forkEvery: Long
    var maxParallelForks: Int
    var debug: bool
    var executable: Option<string>
    var javaLauncher: Option<string>
    var includes: seq<string>
    var excludes: seq<string>

    /** The argument checks of the two setters keep both counts in range. */
    predicate Valid()
      reads this
    {
      forkEvery >= 0 && maxParallelForks >= 1
    }

    /** A new task: no fork limit, one process at a time, no debugging, no executable nor launcher. */
    constructor ()
      ensures Valid()
      ensures forkEvery == 0 && maxParallelForks == 1 && !debug
      ensures executable == None && javaLauncher == None
      ensures includes == [] && excludes == []
    {
      forkEvery := 0;
      maxParallelForks := 1;
      debug := false;
      executable := None;
      javaLauncher := None;
      includes := [];
      excludes := [];
    }

    /** `getForkEvery`: no limit (0) while debugging, the stored limit otherwise. */
    function GetForkEvery(): (r: Long)
      reads this
      requires Valid()
      ensures r >= 0
      ensures debug ==> r == 0
      ensures !debug ==> r == forkEvery
    {
      if debug then 0 else forkEvery
    }

    /** `setForkEvery`: null stores 0, a negative value is refused, any other value is stored. */
    method SetForkEvery(value: Option<Long>) returns (r: Outcome<JavaException>)
      requires Valid()
      modifies this
      ensures Valid()
      ensures r.Fail? <==> value.Some? && value.value < 0
      ensures r.Fail? ==> r.error == IllegalArgumentException(ForkEveryMessage) && forkEvery == old(forkEvery)
      ensures r.Pass? ==> forkEvery == value.GetOr(0)
      ensures maxParallelForks == old(maxParallelForks) && debug == old(debug)
      ensures executable == old(executable) && javaLauncher == old(javaLauncher)
      ensures includes == old(includes) && excludes == old(excludes)
    {
      if value.Some? && value.value < 0 {
        return Fail(IllegalArgumentException(ForkEveryMessage));
      }
      forkEvery := if value.None? then 0 else value.value;
      r := Pass;
    }

    /** `getMaxParallelForks`: one process while debugging, the stored count otherwise. */
    function GetMaxParallelForks(): (r: Int)
      reads this
      requires Valid()
      ensures r >= 1
      ensures debug ==> r == 1
      ensures !debug ==> r == maxParallelForks
    {
      if debug then 1 else maxParallelForks
    }

    /** `setMaxParallelForks`: a count below 1 is refused, any other count is stored. */
    method SetMaxParallelForks(value: Int) returns (r: Outcome<JavaException>)
      requires Valid()
      modifies this
      ensures Valid()
      ensures r.Fail? <==> value < 1
      ensures r.Fail? ==> r.error == IllegalArgumentException(MaxParallelForksMessage) && maxParallelForks == old(maxParallelForks)
      ensures r.Pass? ==> maxParallelForks == value
      ensures forkEvery == old(forkEvery) && debug == old(debug)
      ensures executable == old(executable) && javaLauncher == old(javaLauncher)
      ensures includes == old(includes) && excludes == old(excludes)
    {
      if value < 1 {
        return Fail(IllegalArgumentException(MaxParallelForksMessage));
      }
      maxParallelForks := value;
      r := Pass;
    }

    /** `setDebug`. */
    method SetDebug(enabled: bool)
      requires Valid()
      modifies this
      ensures Valid()
      ensures debug == enabled
      ensures forkEvery == old(forkEvery) && maxParallelForks == old(maxParallelForks)
      ensures executable == old(executable) && javaLauncher == old(javaLauncher)
      ensures includes == old(includes) && excludes == old(excludes)
    {
      debug := enabled;
    }

    /** `setExecutable` (null clears it). */
    method SetExecutable(value: Option<string>)
      requires Valid()
      modifies this
      ensures Valid()
      ensures executable == value
      ensures forkEvery == old(forkEvery) && maxParallelForks == old(maxParallelForks) && debug == old(debug)
      ensures javaLauncher == old(javaLauncher)
      ensures includes == old(includes) && excludes == old(excludes)
    {
      executable := value;
    }

    /** Sets or clears the `javaLauncher` property, given by the launcher's executable path. */
    method SetJavaLauncher(path: Option<string>)
      requires Valid()
      modifies this
      ensures Valid()
      ensures javaLauncher == path
      ensures forkEvery == old(forkEvery) && maxParallelForks == old(maxParallelForks) && debug == old(debug)
      ensures executable == old(executable)
      ensures includes == old(includes) && excludes == old(excludes)
    {
      javaLauncher := path;
    }

    /** `include(pattern)`: adds an include pattern the pattern set does not hold yet. */
    method Include(pattern: string)
      requires Valid()
      modifies this
      ensures Valid()
      ensures includes == if pattern in old(includes) then old(includes) else old(includes) + [pattern]
      ensures forkEvery == old(forkEvery) && maxParallelForks == old(maxParallelForks) && debug == old(debug)
      ensures executable == old(executable) && javaLauncher == old(javaLauncher)
      ensures excludes == old(excludes)
    {
      if pattern !in includes {
        includes := includes + [pattern];
      }
    }

    /** `exclude(pattern)`: adds an exclude pattern the pattern set does not hold yet. */
    method Exclude(pattern: string)
      requires Valid()
      modifies this
      ensures Valid()
      ensures excludes == if pattern in old(excludes) then old(excludes) else old(excludes) + [pattern]
      ensures forkEvery == old(forkEvery) && maxParallelForks == old(maxParallelForks) && debug == old(debug)
      ensures executable == old(executable) && javaLauncher == old(javaLauncher)
      ensures includes == old(includes)
    {
      if pattern !in excludes {
        excludes := excludes + [pattern];
      }
    }

    /**
     * `getNoMatchingTestErrorReasons`: the include rules if there are any, then
     * the exclude rules if there are any, then the reasons of the superclass.
     */
    method GetNoMatchingTestErrorReasons(superReasons: seq<string>) returns (reasons: seq<string>)
      ensures |reasons| == (if includes != [] then 1 else 0) + (if excludes != [] then 1 else 0) + |superReasons|
      ensures includes != [] ==> reasons[0] == CollectionToString(includes) + "(include rules)"
      ensures excludes != [] ==>
        reasons[if includes != [] then 1 else 0] == CollectionToString(excludes) + "(exclude rules)"
      ensures reasons[|reasons| - |superReasons|..] == superReasons
    {
      reasons := [];
      if includes != [] {
        reasons := reasons + [CollectionToString(includes) + "(include rules)"];
      }
      if excludes != [] {
        reasons := reasons + [CollectionToString(excludes) + "(exclude rules)"];
      }
      reasons := reasons + superReasons;
    }

    /** `validateToolchainConfiguration`: an executable may not be set along with a launcher. */
    function ValidateToolchainConfiguration(): (r: Outcome<JavaException>)
      reads this
      ensures r.Fail? <==> javaLauncher.Some? && executable.Some?
      ensures r.Fail? ==> r.error == IllegalStateException(ToolchainMessage)
    {
      if javaLauncher.Some? && executable.Some? then Fail(IllegalStateException(ToolchainMessage)) else Pass
    }

    /**
     * `getEffectiveExecutable`: the launcher's executable when a launcher is
     * present, else the configured executable, else `currentJvmJava`, the
     * java executable of the JVM Gradle runs in.
     */
    function GetEffectiveExecutable(currentJvmJava: string): (r: string)
      reads this
      ensures r == javaLauncher.GetOr(executable.GetOr(currentJvmJava))
    {
      if javaLauncher.Some? then javaLauncher.value
      else if executable.None? then currentJvmJava
      else executable.value
    }

    /**
     * Under a valid toolchain configuration at most one of launcher and
     * executable is set, and whichever the user set is the one used.
     */
    lemma EffectiveExecutableHonoursConfiguration(currentJvmJava: string)
      requires ValidateToolchainConfiguration().Pass?
      ensures javaLauncher.Some? ==> GetEffectiveExecutable(currentJvmJava) == javaLauncher.value
      ensures executable.Some? ==> GetEffectiveExecutable(currentJvmJava) == executable.value
      ensures javaLauncher.None? && executable.None? ==> GetEffectiveExecutable(currentJvmJava) == currentJvmJava
    {
    }
  }
}
