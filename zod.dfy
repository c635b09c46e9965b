/**
 * The part of a schema library's failure report the system reads: an ordered
 * list of issues, each with a path, a message, a code and possibly the value
 * received; and the one translation of an issue into a field issue that the
 * error handler, `validateValue` and `safeValidate` share.
 */
module Zod {
  import opened Wrappers
  import opened Strings
  import opened Json
  import opened ErrorTypes

  /** An object key or an array index on an issue's path. */
  datatype PathSegment = Key(name: string) | Index(i: nat)

  datatype ZodIssue = ZodIssue(
    path: seq<PathSegment>,
    message: string,
    code: string,
    received: Option<Value>)

  function SegmentText(p: PathSegment): string {
    match p
    case Key(name) => name
    case Index(i) => NatToString(i)
  }

  function SegmentTexts(path: seq<PathSegment>): (texts: seq<string>)
    ensures |texts| == |path|
    ensures forall i :: 0 <= i < |path| ==> texts[i] == SegmentText(path[i])
  {
    seq(|path|, i requires 0 <= i < |path| => SegmentText(path[i]))
  }

  /** `issue.path.join(".")`. */
  function JoinPath(path: seq<PathSegment>): string {
    Join(SegmentTexts(path), ".")
  }

  /** `received || undefined`: a falsy received value is dropped. */
  function ReceivedValue(received: Option<Value>): (v: Option<Value>)
    ensures v.Some? <==> received.Some? && Truthy(received.value)
    ensures v.Some? ==> v == received
  {
    if received.Some? && Truthy(received.value) then received else None
  }

  /** One issue as a field issue, under the given field name. */
  function IssueDetail(field: string, issue: ZodIssue): (d: ErrorDetails)
    ensures d.field == Some(field) && d.message == issue.message && d.code == Some(issue.code)
    ensures d.value == ReceivedValue(issue.received)
  {
    ErrorDetails(Some(field), issue.message, Some(issue.code), ReceivedValue(issue.received))
  }

  /** The issues as field issues named by their bare joined path, one for one and in order. */
  function ZodDetails(issues: seq<ZodIssue>): (ds: seq<ErrorDetails>)
    ensures |ds| == |issues|
    ensures forall i :: 0 <= i < |issues| ==> ds[i] == IssueDetail(JoinPath(issues[i].path), issues[i])
  {
    seq(|issues|, i requires 0 <= i < |issues| => IssueDetail(JoinPath(issues[i].path), issues[i]))
  }

  /** The joined path has the path's keys back when they hold no dot. */
  lemma JoinPathSplits(path: seq<PathSegment>)
    requires |path| >= 1
    requires forall i :: 0 <= i < |path| ==> '.' !in SegmentText(path[i])
    ensures Split(JoinPath(path), '.') == SegmentTexts(path)
  {
    SplitJoin(SegmentTexts(path), '.');
  }
}
