/**
  How a run of the notifier ends. The source terminates the process on every
  error (log.Fatalf) and on a rejected address (os.Exit(1)); here each of
  those becomes a terminal value.
*/
module Outcome {

  import opened Wrappers

  /** The two chat webhooks: WeCom (WeChat Work) and DingTalk. */
  datatype Channel = WeChat | DingTalk

  /** Every fatal error the program can hit, with the channel it concerns. */
  datatype Failure =
    | LookupGetFailed              // the geolocation GET failed
    | LookupReadFailed             // its response body could not be read
    | EncodeFailed(channel: Channel)        // json.Marshal of the envelope failed
    | PostFailed(channel: Channel)          // the webhook POST failed
    | ResponseReadFailed(channel: Channel)  // the webhook's response could not be read

  /** The channel a failure concerns; none for the two lookup failures. */
  function FailedChannel(f: Failure): Option<Channel>
  {
    match f
    case LookupGetFailed => None
    case LookupReadFailed => None
    case EncodeFailed(ch) => Some(ch)
    case PostFailed(ch) => Some(ch)
    case ResponseReadFailed(ch) => Some(ch)
  }

  /** Final status of one run. */
  datatype Status = Success | Rejected | Fatal(cause: Failure)

  /**
    The process exit status: returning from main gives 0; os.Exit(1) on a
    rejected address and log.Fatalf (which exits with 1) give 1.
  */
  function ExitCode(s: Status): (code: int)
    ensures code == 0 <==> s == Success
    ensures code == 1 <==> s != Success
  {
    if s.Success? then 0 else 1
  }
}
