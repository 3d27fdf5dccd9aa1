/** The text the logger builds: bounded formatting into fixed buffers of wide characters.
    A text is the part of a buffer before its terminator. */
module LogText {

  const LOG_MESSAGE_MAX_LENGTH: nat := 512
  const DAY_INFO_BUFFER_LENGTH: nat := 16

  /** What StringCchPrintfW leaves in a buffer of n characters: the text cut to n - 1 characters. */
  function Bounded(n: nat, text: string): string
    requires n >= 1
  {
    if |text| < n then text else text[..n - 1]
  }

  /** Both formatting stages of LogMonitor and LogMonitorAsync with buffers of n characters:
      the caller's message, then the message decorated. */
  function TwoStage(n: nat, prefix: string, message: string, suffix: string): string
    requires n >= 1
  {
    Bounded(n, prefix + Bounded(n, message) + suffix)
  }

  /** The record LogMonitor and LogMonitorAsync write for a formatted message. */
  function MonitorRecord(message: string): string {
    TwoStage(LOG_MESSAGE_MAX_LENGTH, "", message, "\n")
  }

  /** Bounding the message and then the decorated record is bounding the decorated record once. */
  lemma TwoStageRefinesOne(n: nat, prefix: string, message: string, suffix: string)
    requires n >= 1
    ensures TwoStage(n, prefix, message, suffix) == Bounded(n, prefix + message + suffix)
  {
    var whole := prefix + message + suffix;
    if |message| >= n {
      var cut := prefix + message[..n - 1] + suffix;
      assert |cut| >= n - 1;
      assert cut[..n - 1] == whole[..n - 1];
      assert TwoStage(n, prefix, message, suffix) == cut[..n - 1];
    }
  }

  /** A record ends with its own newline exactly when the message has at most n - 2 characters;
      otherwise it is the beginning of the message. */
  lemma NewlineSurvives(n: nat, message: string)
    requires n >= 1
    ensures TwoStage(n, "", message, "\n") == message + "\n" <==> |message| + 2 <= n
    ensures |message| + 2 > n ==> TwoStage(n, "", message, "\n") == message[..n - 1]
  {
    TwoStageRefinesOne(n, "", message, "\n");
    var whole := "" + message + "\n";
    assert whole == message + "\n";
    if |message| + 2 > n {
      assert whole[..n - 1] == message[..n - 1];
    }
  }
}
