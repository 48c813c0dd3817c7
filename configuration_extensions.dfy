/**
 * FsCheckUtils/ConfigurationExtensions.cs: setters that assign one property of a
 * Fluent Configuration in place and return the same object, for chaining.
 */
module ConfigurationExtensions {
  import opened FsCheck

  method WithMaxTest(configuration: Configuration, maxTest: int) returns (r: Configuration)
    modifies configuration`maxNbOfTest
    ensures r == configuration
    ensures configuration.View() == old(configuration.View()).(maxNbOfTest := maxTest)
  {
    configuration.maxNbOfTest := maxTest;
    r := configuration;
  }

  method WithMaxFail(configuration: Configuration, maxFail: int) returns (r: Configuration)
    modifies configuration`maxNbOfFailedTests
    ensures r == configuration
    ensures configuration.View() == old(configuration.View()).(maxNbOfFailedTests := maxFail)
  {
    configuration.maxNbOfFailedTests := maxFail;
    r := configuration;
  }

  method WithName(configuration: Configuration, name: string) returns (r: Configuration)
    modifies configuration`name
    ensures r == configuration
    ensures configuration.View() == old(configuration.View()).(name := name)
  {
    configuration.name := name;
    r := configuration;
  }

  method WithStartSize(configuration: Configuration, startSize: int) returns (r: Configuration)
    modifies configuration`startSize
    ensures r == configuration
    ensures configuration.View() == old(configuration.View()).(startSize := startSize)
  {
    configuration.startSize := startSize;
    r := configuration;
  }

  method WithEndSize(configuration: Configuration, endSize: int) returns (r: Configuration)
    modifies configuration`endSize
    ensures r == configuration
    ensures configuration.View() == old(configuration.View()).(endSize := endSize)
  {
    configuration.endSize := endSize;
    r := configuration;
  }

  method WithEvery(configuration: Configuration, every: (int, seq<Arg>) -> string) returns (r: Configuration)
    modifies configuration`every
    ensures r == configuration
    ensures configuration.View() == old(configuration.View()).(every := every)
  {
    configuration.every := every;
    r := configuration;
  }

  method WithEveryShrink(configuration: Configuration, everyShrink: seq<Arg> -> string) returns (r: Configuration)
    modifies configuration`everyShrink
    ensures r == configuration
    ensures configuration.View() == old(configuration.View()).(everyShrink := everyShrink)
  {
    configuration.everyShrink := everyShrink;
    r := configuration;
  }

  method WithRunner(configuration: Configuration, runner: Runner) returns (r: Configuration)
    modifies configuration`runner
    ensures r == configuration
    ensures configuration.View() == old(configuration.View()).(runner := runner)
  {
    configuration.runner := runner;
    r := configuration;
  }

  /** A chain of setters on different properties: every assignment stays in effect. */
  method ChainedSetters(configuration: Configuration, maxTest: int, name: string) returns (r: Configuration)
    modifies configuration
    ensures r == configuration
    ensures configuration.View() == old(configuration.View()).(maxNbOfTest := maxTest, name := name)
  {
    r := WithMaxTest(configuration, maxTest);
    r := WithName(r, name);
  }

  /** Two setters on the same property: the second value is the one that remains. */
  method RepeatedSetter(configuration: Configuration, first: int, second: int) returns (r: Configuration)
    modifies configuration
    ensures r == configuration
    ensures configuration.View() == old(configuration.View()).(maxNbOfTest := second)
  {
    r := WithMaxTest(configuration, first);
    r := WithMaxTest(r, second);
  }
}
