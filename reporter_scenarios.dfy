/** The reporter's budget seen from a caller: after clear, it answers true
    to nineteen reports and false to the twentieth. */
module ReporterScenarios {
  import opened Tokens
  import opened Reporting

  /** Reports `message` until the reporter refuses one, starting from a
      cleared reporter; answers how many reports were accepted. */
  method ReportUntilRefused(reporter: TestReporter, message: Message) returns (accepted: nat)
    requires reporter.Valid()
    modifies reporter
    ensures reporter.Valid()
    ensures accepted == MessageLimit - 1
    ensures reporter.messages == seq(MessageLimit, _ => message)
  {
    reporter.Clear();
    accepted := 0;
    var ok := reporter.Report(message);
    while ok
      invariant reporter.Valid()
      invariant |reporter.messages| == accepted + 1 <= MessageLimit
      invariant reporter.messages == seq(accepted + 1, _ => message)
      invariant ok <==> accepted + 1 < MessageLimit
      decreases MessageLimit - accepted
    {
      accepted := accepted + 1;
      ok := reporter.Report(message);
    }
  }
}
