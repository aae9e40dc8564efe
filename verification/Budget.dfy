/** How many tokens a request may carry in, and how many it may ask for out. */
module Budget {
  import opened Arithmetic
  import opened Text

  const DEFAULT_CONTEXT_WINDOW_TOKENS := 128_000
  const DEFAULT_MAX_OUTPUT_TOKENS := 32_768
  const DEFAULT_KEEP_RECENT_TOKENS := 20_000

  datatype ContextBudgetConfig = ContextBudgetConfig(window: int, maxOutput: int) {

    /** What `from_runtime` guarantees of every configuration it builds. */
    predicate Valid() {
      window >= 1000 && maxOutput >= 1
    }

    function OutputReserve(): int {
      Min(maxOutput, Max(1, window / 3))
    }

    /** Five per cent of the window, at least 64. */
    function SafetyMargin(): int {
      Max(64, window / 20)
    }

    function TokenBudget(): int {
      Max(1, window - OutputReserve() - SafetyMargin())
    }

    function KeepRecent(): int {
      Max(1, Min(DEFAULT_KEEP_RECENT_TOKENS, TokenBudget() / 4))
    }

    function SummaryOutput(): int {
      Max(1, Min(Min(8_192, OutputReserve() / 2), maxOutput))
    }

    function InputBudgetFor(outputTokens: int): int {
      Max(1, window - Min(Max(1, outputTokens), maxOutput) - SafetyMargin())
    }

    /** The output cap of a request with that input; None when there is no room and the source raises. */
    function OutputTokensFor(inputTokens: int, requested: Option<int>): Option<int> {
      var wanted := match requested
        case None => maxOutput
        case Some(r) => Min(Max(1, r), maxOutput);
      var available := window - Max(0, inputTokens) - SafetyMargin();
      if available < 1 then None else Some(Min(wanted, available))
    }
  }

  function FromRuntime(runtime: Option<(int, int)>): (config: ContextBudgetConfig)
    ensures config.Valid()
  {
    match runtime
    case None => ContextBudgetConfig(DEFAULT_CONTEXT_WINDOW_TOKENS, DEFAULT_MAX_OUTPUT_TOKENS)
    case Some((window, maxOutput)) => ContextBudgetConfig(Max(1000, window), Max(1, maxOutput))
  }

  /**
   * The token budget is exact: an input is granted at least the reserved output, with the
   * safety margin kept free, if and only if the input is within the token budget.
   */
  lemma TokenBudgetIsExact(config: ContextBudgetConfig, input: nat)
    requires config.Valid()
    ensures input <= config.TokenBudget() <==>
      && config.OutputTokensFor(input, None).Some?
      && config.OutputTokensFor(input, None).value >= config.OutputReserve()
    ensures config.OutputTokensFor(input, None).Some? ==>
      input + config.OutputTokensFor(input, None).value + config.SafetyMargin() <= config.window
  {
    assert config.OutputReserve() <= config.window / 3;
    assert config.TokenBudget() == config.window - config.OutputReserve() - config.SafetyMargin();
  }

  /** The caps the summariser uses. */
  predicate SummaryCap(config: ContextBudgetConfig, cap: int) {
    1 <= cap <= config.SummaryOutput()
  }

  /**
   * A summary request gets the whole cap it asks for, not a clamped one, if and only if its
   * input is within the input budget worked out for that cap.
   */
  lemma SummaryCapIsUnclamped(config: ContextBudgetConfig, input: nat, cap: int)
    requires config.Valid() && SummaryCap(config, cap)
    ensures input <= config.InputBudgetFor(cap) <==> config.OutputTokensFor(input, Some(cap)) == Some(cap)
    ensures input <= config.InputBudgetFor(cap) ==> input + cap + config.SafetyMargin() <= config.window
  {
    assert cap <= config.maxOutput && cap <= Max(1, config.window / 6);
    assert config.InputBudgetFor(cap) == config.window - cap - config.SafetyMargin();
  }

  /** The most a request may ask for: the output limit, or what it requests when that is less, but at least one. */
  predicate Allows(config: ContextBudgetConfig, requested: Option<int>, cap: int) {
    1 <= cap <= config.maxOutput && (requested.Some? ==> cap <= requested.value || cap == 1)
  }

  /** A request gets the largest cap allowed that leaves the input and the margin room in the window. */
  lemma CapIsLargest(config: ContextBudgetConfig, input: nat, requested: Option<int>, cap: int)
    requires config.Valid()
    ensures config.OutputTokensFor(input, requested) == Some(cap) <==>
      && Allows(config, requested, cap) && input + cap + config.SafetyMargin() <= config.window
      && !(Allows(config, requested, cap + 1) && input + cap + 1 + config.SafetyMargin() <= config.window)
    ensures config.OutputTokensFor(input, requested).None? <==> input + 1 + config.SafetyMargin() > config.window
  {
  }

  /** What is set aside of a window: a third of it or the output limit, and a twentieth or 64. */
  lemma ReserveAndMargin(config: ContextBudgetConfig)
    requires config.Valid()
    ensures 3 * config.OutputReserve() <= config.window && config.OutputReserve() <= config.maxOutput
    ensures config.OutputReserve() == config.maxOutput || 3 * (config.OutputReserve() + 1) > config.window
    ensures config.SafetyMargin() >= 64 && 20 * (config.SafetyMargin() + 1) > config.window
    ensures config.SafetyMargin() == 64 || 20 * config.SafetyMargin() <= config.window
    ensures config.TokenBudget() + config.OutputReserve() + config.SafetyMargin() == config.window
    ensures config.KeepRecent() <= 20_000 && 4 * config.KeepRecent() <= config.TokenBudget()
    ensures config.KeepRecent() == 20_000 || 4 * (config.KeepRecent() + 1) > config.TokenBudget()
    ensures 1 <= config.SummaryOutput() <= 8_192 && config.SummaryOutput() <= config.maxOutput
    ensures config.SummaryOutput() == 8_192 || config.SummaryOutput() == 1
         || config.SummaryOutput() == config.OutputReserve() / 2
    ensures 2 * config.SummaryOutput() <= config.OutputReserve() || config.SummaryOutput() == 1
  {
  }

  /** The figures of the configuration used when none is given, and of the smallest one with as much output. */
  lemma BudgetsInFigures()
    ensures var config := FromRuntime(None);
            && config.window == 128_000 && config.OutputReserve() == 32_768 && config.SafetyMargin() == 6_400
            && config.TokenBudget() == 88_832 && config.KeepRecent() == 20_000 && config.SummaryOutput() == 8_192
    ensures var config := FromRuntime(Some((500, 32_768)));
            && config.window == 1_000 && config.OutputReserve() == 333 && config.SafetyMargin() == 64
            && config.TokenBudget() == 603 && config.KeepRecent() == 150 && config.SummaryOutput() == 166
  {
  }
}
