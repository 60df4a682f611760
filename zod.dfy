/** The part of the zod 4 validation library the schemas of
    `src/schemaValidation/` rely on, over inputs already split into their
    fields. A field the input does not carry is `None` (`undefined`).
    Type mismatches other than a missing field are not represented: every
    present field has the type the schema declares. */
module Zod {
  import opened Wrappers

  /** One step of an issue's path: an object key or an array index. */
  datatype PathKey = Key(name: string) | Index(i: nat)

  /** A validation issue. `Message` issues come from checks (length,
      pattern, range, format, custom refinements) and carry the schema's
      own text; the other kinds come from the library itself. */
  datatype Issue =
    | Message(path: seq<PathKey>, message: string)
    | Missing(path: seq<PathKey>)
    | InvalidOption(path: seq<PathKey>)
    | UnrecognizedKeys(keys: seq<string>)

  /** zod runs an object's refinements only while every issue so far is a
      continuable check issue: a missing field, an enum mismatch or an
      unrecognised key stops them. */
  predicate Continuable(issues: seq<Issue>) {
    forall i :: 0 <= i < |issues| ==> issues[i].Message?
  }

  /** How an object treats keys its shape does not list. */
  datatype UnknownKeys = Strip | Strict

  /** `.strict()` reports the unknown keys in one issue; `.strip()` (the
      default) drops them silently. */
  function KeyIssues(mode: UnknownKeys, extraKeys: seq<string>): (issues: seq<Issue>)
    ensures issues == [] <==> (mode.Strip? || extraKeys == [])
    ensures issues != [] ==> issues == [UnrecognizedKeys(extraKeys)]
  {
    if mode == Strict && extraKeys != [] then [UnrecognizedKeys(extraKeys)] else []
  }

  /** A required field: `Missing` when absent, otherwise the issues of its
      checks. */
  function Required<T>(field: string, v: Option<T>, checks: T -> seq<Issue>): (issues: seq<Issue>)
    ensures v.None? ==> issues == [Missing([Key(field)])]
    ensures v.Some? ==> issues == checks(v.value)
  {
    if v.None? then [Missing([Key(field)])] else checks(v.value)
  }

  /** An `.optional()` field: nothing when absent. */
  function Optional<T>(v: Option<T>, checks: T -> seq<Issue>): (issues: seq<Issue>)
    ensures v.None? ==> issues == []
    ensures v.Some? ==> issues == checks(v.value)
  {
    if v.None? then [] else checks(v.value)
  }

  /** A check with its message: one issue at `field` when `ok` fails. */
  function Check(field: string, ok: bool, message: string): (issues: seq<Issue>)
    ensures issues == [] <==> ok
    ensures !ok ==> issues == [Message([Key(field)], message)]
  {
    if ok then [] else [Message([Key(field)], message)]
  }

  /** `z.enum(options)` on a present value. */
  function OneOf(field: string, value: string, options: seq<string>): (issues: seq<Issue>)
    ensures issues == [] <==> value in options
    ensures issues != [] ==> issues == [InvalidOption([Key(field)])]
  {
    if value in options then [] else [InvalidOption([Key(field)])]
  }

  /** A required field whose checks only give check issues stops
      refinements exactly when it is missing. */
  lemma RequiredContinuable<T>(field: string, v: Option<T>, checks: T -> seq<Issue>)
    requires forall x :: Continuable(checks(x))
    ensures Continuable(Required(field, v, checks)) <==> v.Some?
  {
    if v.None? {
      assert Required(field, v, checks)[0].Missing?;
    }
  }

  /** Two issue lists together let refinements run exactly when each
      does. */
  lemma ContinuableAppend(a: seq<Issue>, b: seq<Issue>)
    ensures Continuable(a + b) <==> Continuable(a) && Continuable(b)
  {
    if Continuable(a + b) {
      forall i | 0 <= i < |a| ensures a[i].Message? { assert a[i] == (a + b)[i]; }
      forall i | 0 <= i < |b| ensures b[i].Message? { assert b[i] == (a + b)[|a| + i]; }
    }
  }
}
