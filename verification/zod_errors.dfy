/**
 * `mapZodErrors`: turns a validation error (or any thrown value) into a flat
 * field → message map. Issue paths become dotted keys, a path-less issue
 * lands on `_form`, and an already filled key is not overwritten. Since
 * `mapped` starts as `{}`, a key named after an `Object.prototype` member
 * already reads as filled and is never written.
 */
module ZodErrors {
  import opened Wrappers
  import opened JsText

  /** One element of an issue's `path`. */
  datatype PathElem = PStr(s: string) | PNum(n: int) | PNull | PUndefined

  /** A validation issue: its `path` (None when not an array), `message`, and `String(issue)`. */
  datatype Issue = Issue(path: Option<seq<PathElem>>, message: Option<string>, repr: string)

  /** The value passed in. */
  datatype ErrValue =
    | Falsy                            // null, undefined, '', 0, false
    | WithIssues(issues: seq<Issue>)   // an object whose `issues` is an array
    | ErrorInstance(message: string)   // an `Error` without such `issues`
    | OtherValue(repr: string)         // anything else, as `String(err)`

  const FormKey := "_form"

  /** The path elements other than null and undefined, stringified. */
  function PathStrings(path: seq<PathElem>): (r: seq<string>)
    ensures |r| <= |path|
  {
    if path == [] then []
    else
      var rest := PathStrings(path[1..]);
      match path[0]
      case PStr(s) => [s] + rest
      case PNum(n) => [IntToString(n)] + rest
      case _ => rest
  }

  /** The key an issue is filed under: the joined path, or `_form` when that is empty. */
  function IssueKey(i: Issue): (k: string)
    ensures k != ""
  {
    var joined := if i.path.Some? then Join(PathStrings(i.path.value), ".") else "";
    if joined == "" then FormKey else joined
  }

  /** `issue.message ?? String(issue)`. */
  function IssueMessage(i: Issue): string {
    if i.message.Some? then i.message.value else i.repr
  }

  function KeysOf(issues: seq<Issue>): set<string> {
    set j | 0 <= j < |issues| :: IssueKey(issues[j])
  }

  /**
   * Reference definition of the message kept for `k`: the first non-empty
   * message among the issues filed under `k`, or '' when there is none.
   */
  function FirstNonEmpty(issues: seq<Issue>, k: string): (r: string)
    ensures r != "" ==> exists j :: 0 <= j < |issues| && IssueKey(issues[j]) == k && IssueMessage(issues[j]) == r
  {
    if issues == [] then ""
    else if IssueKey(issues[0]) == k && IssueMessage(issues[0]) != "" then IssueMessage(issues[0])
    else
      var r := FirstNonEmpty(issues[1..], k);
      assert r != "" ==> exists j :: 1 <= j < |issues| && IssueKey(issues[j]) == k && IssueMessage(issues[j]) == r by {
        if r != "" {
          var j :| 0 <= j < |issues[1..]| && IssueKey(issues[1..][j]) == k && IssueMessage(issues[1..][j]) == r;
          assert issues[1..][j] == issues[j + 1];
        }
      }
      r
  }

  lemma {:induction false} FirstNonEmptyAppend(s: seq<Issue>, x: Issue, k: string)
    ensures FirstNonEmpty(s + [x], k) ==
      if FirstNonEmpty(s, k) != "" then FirstNonEmpty(s, k)
      else if IssueKey(x) == k then IssueMessage(x) else ""
  {
    if s == [] {
      assert s + [x] == [x];
      assert [x][1..] == [];
    } else {
      assert (s + [x])[0] == s[0];
      assert (s + [x])[1..] == s[1..] + [x];
      FirstNonEmptyAppend(s[1..], x, k);
    }
  }

  /** The first issue under a key with a non-empty message is the one kept. */
  lemma {:induction false} FirstNonEmptyIsFirst(issues: seq<Issue>, i: int)
    requires 0 <= i < |issues| && IssueMessage(issues[i]) != ""
    requires forall j :: 0 <= j < i && IssueKey(issues[j]) == IssueKey(issues[i]) ==> IssueMessage(issues[j]) == ""
    ensures FirstNonEmpty(issues, IssueKey(issues[i])) == IssueMessage(issues[i])
  {
    if i > 0 {
      var k := IssueKey(issues[i]);
      assert issues[0] == issues[0];
      forall j | 0 <= j < i - 1 && IssueKey(issues[1..][j]) == k
        ensures IssueMessage(issues[1..][j]) == ""
      {
        assert issues[1..][j] == issues[j + 1];
      }
      FirstNonEmptyIsFirst(issues[1..], i - 1);
    }
  }

  lemma KeysOfAppend(s: seq<Issue>, x: Issue)
    ensures KeysOf(s + [x]) == KeysOf(s) + {IssueKey(x)}
  {
    var t := s + [x];
    forall k | k in KeysOf(t) ensures k in KeysOf(s) + {IssueKey(x)} {
      var j :| 0 <= j < |t| && IssueKey(t[j]) == k;
      if j < |s| { assert t[j] == s[j]; }
    }
    forall k | k in KeysOf(s) ensures k in KeysOf(t) {
      var j :| 0 <= j < |s| && IssueKey(s[j]) == k;
      assert t[j] == s[j];
    }
    assert IssueKey(t[|s|]) == IssueKey(x);
  }

  /**
   * One iteration of the loop: file `x` unless its key already reads as a
   * truthy value of `mapped`, which is the case for a non-empty message
   * filed earlier and for every name `{}` inherits from `Object.prototype`.
   */
  function FileIssue(m: map<string, string>, x: Issue): (r: map<string, string>)
    ensures IssueKey(x) in ObjectPrototypeKeys ==> r == m
  {
    var key := IssueKey(x);
    if key !in ObjectPrototypeKeys && (key !in m || m[key] == "") then m[key := IssueMessage(x)] else m
  }

  /** The keys `mapped` ends up owning: the issues' keys minus the inherited names. */
  function OwnKeys(issues: seq<Issue>): set<string> {
    KeysOf(issues) - ObjectPrototypeKeys
  }

  lemma FileIssueStep(s: seq<Issue>, x: Issue, m: map<string, string>)
    requires m.Keys == OwnKeys(s)
    requires forall k :: k in m ==> m[k] == FirstNonEmpty(s, k)
    ensures FileIssue(m, x).Keys == OwnKeys(s + [x])
    ensures forall k :: k in FileIssue(m, x) ==> FileIssue(m, x)[k] == FirstNonEmpty(s + [x], k)
  {
    KeysOfAppend(s, x);
    forall k | k in FileIssue(m, x) ensures FileIssue(m, x)[k] == FirstNonEmpty(s + [x], k) {
      FirstNonEmptyAppend(s, x, k);
    }
  }

  /**
   * The `issues.forEach` loop: every issue key except the inherited names
   * is filed, each with the first non-empty message filed under it.
   */
  method MapIssues(issues: seq<Issue>) returns (m: map<string, string>)
    ensures m.Keys == KeysOf(issues) - ObjectPrototypeKeys
    ensures forall k :: k in m ==> m[k] == FirstNonEmpty(issues, k)
  {
    m := map[];
    var i := 0;
    while i < |issues|
      invariant 0 <= i <= |issues|
      invariant m.Keys == OwnKeys(issues[..i])
      invariant forall k :: k in m ==> m[k] == FirstNonEmpty(issues[..i], k)
    {
      FileIssueStep(issues[..i], issues[i], m);
      assert issues[..i + 1] == issues[..i] + [issues[i]];
      var key := IssueKey(issues[i]);
      if key !in ObjectPrototypeKeys && (key !in m || m[key] == "") {
        m := m[key := IssueMessage(issues[i])];
      }
      i := i + 1;
    }
    assert issues[..i] == issues;
  }

  method MapZodErrors(err: ErrValue) returns (m: map<string, string>)
    ensures err.Falsy? ==> m == map[]
    ensures err.WithIssues? ==>
      && m.Keys == KeysOf(err.issues) - ObjectPrototypeKeys
      && (forall k :: k in m ==> m[k] == FirstNonEmpty(err.issues, k))
    ensures err.ErrorInstance? ==> m == map[FormKey := err.message]
    ensures err.OtherValue? ==> m == map[FormKey := err.repr]
  {
    match err
    case Falsy => m := map[];
    case WithIssues(issues) => m := MapIssues(issues);
    case ErrorInstance(msg) => m := map[FormKey := msg];
    case OtherValue(repr) => m := map[FormKey := repr];
  }
}
