/**
 * The behaviour of the validation library's object schemas, as far as the order
 * schemas use it. Each key's schema yields a `Field`: the issues it raised,
 * whether it aborted (a wrong type, a missing required value, a value outside
 * an enumeration, an invalid date), and the parsed value. Length, pattern and
 * refinement checks add issues without aborting. An object's refinement
 * (`superRefine`) runs only when no key aborted, and its issues follow the keys'.
 */
module Zod {
  import opened Wrappers
  import opened Json
  import opened Strings

  /**
   * What an issue says. `Text` is a message given as text (the library's
   * "Required" or one a schema supplies); the others are the library's own
   * issue codes, whose wording `MessageText` renders.
   */
  datatype Message =
    | Text(text: string)
    | InvalidType(expected: string, received: Value)
    | InvalidEnumType(options: seq<string>, received: Value)
    | InvalidEnumValue(options: seq<string>, received: Value)
    | InvalidDate

  /** One validation issue: the key it is about (none for an object-level issue) and its message. */
  datatype Issue = Issue(path: Option<Key>, message: Message)

  /** What one key's schema produced. */
  datatype Field = Field(key: Key, issues: seq<Issue>, aborted: bool, value: Value)

  /** Every issue of a field is about its key, and an aborted field has an issue. */
  predicate Sound(f: Field) {
    (f.aborted ==> f.issues != [])
    && forall i | i in f.issues :: i.path == Some(f.key)
  }

  /** The library's message for a missing value. */
  const RequiredMsg: Message := Text("Required")

  /** The options of an enumeration as the library lists them: `'a' | 'b'`. */
  function QuoteJoin(options: seq<string>): string {
    if options == [] then ""
    else if |options| == 1 then "'" + options[0] + "'"
    else "'" + options[0] + "' | " + QuoteJoin(options[1..])
  }

  /** The text the library shows for each message. */
  function MessageText(m: Message): string {
    match m
    case Text(text) => text
    case InvalidType(expected, received) => "Expected " + expected + ", received " + TypeName(received)
    case InvalidEnumType(options, received) => "Expected " + QuoteJoin(options) + ", received " + TypeName(received)
    case InvalidEnumValue(options, received) =>
      "Invalid enum value. Expected " + QuoteJoin(options) + ", received '" + JsString(received) + "'"
    case InvalidDate => "Invalid date"
  }

  /** The library's message for a value of the wrong type (a custom one for a missing value, when given). */
  function TypeMessage(expected: string, v: Value, requiredMsg: Message): Message {
    if v == Undefined then requiredMsg else InvalidType(expected, v)
  }

  function Pass(key: Key, v: Value): Field {
    Field(key, [], false, v)
  }

  function Abort(key: Key, message: Message): Field {
    Field(key, [Issue(Some(key), message)], true, Undefined)
  }

  /** The primitive schemas the order schemas use. */
  datatype Kind = StringKind | NumberKind | BooleanKind

  function KindName(kind: Kind): string {
    match kind
    case StringKind => "string"
    case NumberKind => "number"
    case BooleanKind => "boolean"
  }

  /** A primitive schema accepts exactly the values whose type name is its own. */
  predicate HasKind(v: Value, kind: Kind) {
    match kind
    case StringKind => v.Str?
    case NumberKind => v.Num?
    case BooleanKind => v.Bool?
  }

  lemma HasKindTypeName(v: Value, kind: Kind)
    ensures HasKind(v, kind) <==> TypeName(v) == KindName(kind)
  {
  }

  /** `z.string()`, `z.number()` or `z.boolean()`, followed by `.optional()` when `optional`. */
  function Primitive(key: Key, v: Value, kind: Kind, requiredMsg: Message, optional: bool): (f: Field)
    ensures Sound(f) && f.key == key
    ensures f.aborted <==> f.issues != []
    ensures f.issues == [] <==> HasKind(v, kind) || (optional && v == Undefined)
    ensures f.issues == [] ==> f.value == v
    ensures v == Undefined && !optional ==> f.issues == [Issue(Some(key), requiredMsg)]
  {
    if HasKind(v, kind) || (optional && v == Undefined) then Pass(key, v)
    else Abort(key, TypeMessage(KindName(kind), v, requiredMsg))
  }

  /** `z.date()`: a `Date` object holding a valid time. */
  function DateField(key: Key, v: Value, requiredMsg: Message, optional: bool): (f: Field)
    ensures Sound(f) && f.key == key
    ensures f.aborted <==> f.issues != []
    ensures f.issues == [] <==> v == Date(true) || (optional && v == Undefined)
    ensures f.issues == [] ==> f.value == v
    ensures v == Date(false) ==> f.issues == [Issue(Some(key), InvalidDate)]
    ensures v == Undefined && !optional ==> f.issues == [Issue(Some(key), requiredMsg)]
  {
    if v == Date(true) || (optional && v == Undefined) then Pass(key, v)
    else if v == Date(false) then Abort(key, InvalidDate)
    else Abort(key, TypeMessage("date", v, requiredMsg))
  }

  /**
   * `z.enum(options)` or, when `acceptsNumbers`, `z.nativeEnum` of a string
   * enumeration (which reports a number as an invalid option rather than as a
   * wrong type).
   */
  function EnumField(key: Key, v: Value, options: seq<string>, optional: bool, acceptsNumbers: bool): (f: Field)
    ensures Sound(f) && f.key == key
    ensures f.aborted <==> f.issues != []
    ensures f.issues == [] <==> (v.Str? && v.s in options) || (optional && v == Undefined)
    ensures f.issues == [] ==> f.value == v
  {
    if (v.Str? && v.s in options) || (optional && v == Undefined) then Pass(key, v)
    else if v.Str? || (acceptsNumbers && v.Num?) then Abort(key, InvalidEnumValue(options, v))
    else if v == Undefined then Abort(key, RequiredMsg)
    else Abort(key, InvalidEnumType(options, v))
  }

  /**
   * A string check (`.min`, `.regex`, `.refine`): an issue when the parsed value
   * is a string and the check, evaluated on it as `passes`, fails; no abort.
   */
  function Check(f: Field, passes: bool, message: Message): (g: Field)
    ensures Sound(f) ==> Sound(g)
    ensures g.key == f.key && g.aborted == f.aborted && g.value == f.value
    ensures g.issues == f.issues + (if f.value.Str? && !passes then [Issue(Some(f.key), message)] else [])
  {
    if f.value.Str? && !passes then f.(issues := f.issues + [Issue(Some(f.key), message)]) else f
  }

  /** `.min(n, { message })` on a string. */
  function MinLength(f: Field, n: nat, message: Message): (g: Field)
    ensures Sound(f) ==> Sound(g)
    ensures g.key == f.key && g.aborted == f.aborted && g.value == f.value
    ensures g.issues == f.issues + (if f.value.Str? && |f.value.s| < n then [Issue(Some(f.key), message)] else [])
  {
    Check(f, f.value.Str? && |f.value.s| >= n, message)
  }

  /** `.transform(t)` on a string, `image` being `t` of the parsed string. */
  function Transform(f: Field, image: string): (g: Field)
    ensures Sound(f) ==> Sound(g)
    ensures g.key == f.key && g.aborted == f.aborted && g.issues == f.issues
    ensures g.value == if f.value.Str? then Str(image) else f.value
  {
    if f.value.Str? then f.(value := Str(image)) else f
  }

  /** The keys' issues in schema order. */
  function AllIssues(fs: seq<Field>): seq<Issue> {
    if fs == [] then [] else fs[0].issues + AllIssues(fs[1..])
  }

  predicate AnyAborted(fs: seq<Field>) {
    exists k | 0 <= k < |fs| :: fs[k].aborted
  }

  predicate AllSound(fs: seq<Field>) {
    forall k | 0 <= k < |fs| :: Sound(fs[k])
  }

  predicate DistinctKeys(fs: seq<Field>) {
    forall j, k | 0 <= j < k < |fs| :: fs[j].key != fs[k].key
  }

  /** `z.object(shape).superRefine(refine)`: the keys' issues, then the refinement's unless a key aborted. */
  function ObjectIssues(fs: seq<Field>, refinement: seq<Issue>): seq<Issue> {
    AllIssues(fs) + (if AnyAborted(fs) then [] else refinement)
  }

  /** The issues about one path, in order. */
  function IssuesAt(issues: seq<Issue>, path: Option<Key>): (r: seq<Issue>)
    ensures forall i | i in r :: i in issues && i.path == path
    ensures forall i | i in issues && i.path == path :: i in r
  {
    if issues == [] then []
    else (if issues[0].path == path then [issues[0]] else []) + IssuesAt(issues[1..], path)
  }

  lemma {:induction false} IssuesAtAppend(a: seq<Issue>, b: seq<Issue>, path: Option<Key>)
    ensures IssuesAt(a + b, path) == IssuesAt(a, path) + IssuesAt(b, path)
  {
    if a == [] {
      assert a + b == b;
    } else {
      assert (a + b)[1..] == a[1..] + b;
      IssuesAtAppend(a[1..], b, path);
    }
  }

  lemma {:induction false} IssuesAtAll(issues: seq<Issue>, path: Option<Key>)
    requires forall i | i in issues :: i.path == path
    ensures IssuesAt(issues, path) == issues
  {
    if issues != [] {
      IssuesAtAll(issues[1..], path);
    }
  }

  lemma {:induction false} IssuesAtNone(issues: seq<Issue>, path: Option<Key>)
    requires forall i | i in issues :: i.path != path
    ensures IssuesAt(issues, path) == []
  {
    if issues != [] {
      IssuesAtNone(issues[1..], path);
    }
  }

  /** Every issue of the object's keys is about one of its keys. */
  lemma {:induction false} AllIssuesPaths(fs: seq<Field>, i: Issue)
    requires AllSound(fs) && i in AllIssues(fs)
    ensures exists k | 0 <= k < |fs| :: i.path == Some(fs[k].key) && i in fs[k].issues
  {
    if i in fs[0].issues {
      assert i.path == Some(fs[0].key);
    } else {
      AllIssuesPaths(fs[1..], i);
      var k :| 0 <= k < |fs[1..]| && i.path == Some(fs[1..][k].key) && i in fs[1..][k].issues;
      assert fs[1..][k] == fs[k + 1];
    }
  }

  /** With distinct keys, the issues about one key are exactly that key's field's issues. */
  lemma {:induction false} IssuesAtField(fs: seq<Field>, k: nat)
    requires AllSound(fs) && DistinctKeys(fs) && k < |fs|
    ensures IssuesAt(AllIssues(fs), Some(fs[k].key)) == fs[k].issues
  {
    var path := Some(fs[k].key);
    IssuesAtAppend(fs[0].issues, AllIssues(fs[1..]), path);
    if k == 0 {
      IssuesAtAll(fs[0].issues, path);
      forall i | i in AllIssues(fs[1..]) ensures i.path != path {
        AllIssuesPaths(fs[1..], i);
      }
      IssuesAtNone(AllIssues(fs[1..]), path);
    } else {
      IssuesAtNone(fs[0].issues, path);
      assert fs[1..][k - 1] == fs[k];
      IssuesAtField(fs[1..], k - 1);
    }
  }

  /** An issue about a key that the key's own field did not raise is not among the keys' issues. */
  lemma NotKeyIssue(fs: seq<Field>, i: Issue, k: nat)
    requires AllSound(fs) && DistinctKeys(fs) && k < |fs|
    requires i.path == Some(fs[k].key) && i !in fs[k].issues
    ensures i !in AllIssues(fs)
  {
    IssuesAtField(fs, k);
  }

  /** An issue without a path is never one of the keys' issues. */
  lemma UnkeyedNotKeyIssue(fs: seq<Field>, i: Issue)
    requires AllSound(fs) && i.path == None
    ensures i !in AllIssues(fs)
  {
    if i in AllIssues(fs) {
      AllIssuesPaths(fs, i);
      assert false;
    }
  }

  /** When no key aborted, an issue no key raised is reported exactly when the refinement raises it. */
  lemma RefinementIssue(fs: seq<Field>, refinement: seq<Issue>, i: Issue)
    requires !AnyAborted(fs) && i !in AllIssues(fs)
    ensures i in ObjectIssues(fs, refinement) <==> i in refinement
  {
  }

  /** No issue at all means every key passed, so none aborted. */
  lemma {:induction false} NoIssuesNoAbort(fs: seq<Field>)
    requires AllSound(fs) && AllIssues(fs) == []
    ensures forall k | 0 <= k < |fs| :: fs[k].issues == []
    ensures !AnyAborted(fs)
  {
    if fs != [] {
      NoIssuesNoAbort(fs[1..]);
      forall k | 0 < k < |fs| ensures fs[k].issues == [] {
        assert fs[k] == fs[1..][k - 1];
      }
    }
  }

  /** An object passes exactly when every key passes and its refinement reports nothing. */
  lemma {:induction false} ObjectIssuesEmpty(fs: seq<Field>, refinement: seq<Issue>)
    requires AllSound(fs)
    ensures ObjectIssues(fs, refinement) == [] <==> (forall k | 0 <= k < |fs| :: fs[k].issues == []) && refinement == []
  {
    if ObjectIssues(fs, refinement) == [] {
      NoIssuesNoAbort(fs);
    }
    if (forall k | 0 <= k < |fs| :: fs[k].issues == []) && refinement == [] {
      AllIssuesEmpty(fs);
    }
  }

  lemma {:induction false} AllIssuesEmpty(fs: seq<Field>)
    requires AllSound(fs) && forall k | 0 <= k < |fs| :: fs[k].issues == []
    ensures AllIssues(fs) == [] && !AnyAborted(fs)
  {
    if fs != [] {
      assert forall k | 0 <= k < |fs[1..]| :: fs[1..][k] == fs[k + 1];
      AllIssuesEmpty(fs[1..]);
    }
  }

  /** The issues about a key the refinement never names are that key's schema's own. */
  lemma ObjectIssuesAt(fs: seq<Field>, refinement: seq<Issue>, k: nat)
    requires AllSound(fs) && DistinctKeys(fs) && k < |fs|
    requires forall i | i in refinement :: i.path != Some(fs[k].key)
    ensures IssuesAt(ObjectIssues(fs, refinement), Some(fs[k].key)) == fs[k].issues
  {
    var tail := if AnyAborted(fs) then [] else refinement;
    IssuesAtField(fs, k);
    IssuesAtAppend(AllIssues(fs), tail, Some(fs[k].key));
    IssuesAtNone(tail, Some(fs[k].key));
  }

  /** The issues of consecutive keys are the issues of each run, in order. */
  lemma {:induction false} AllIssuesAppend(a: seq<Field>, b: seq<Field>)
    ensures AllIssues(a + b) == AllIssues(a) + AllIssues(b)
  {
    if a == [] {
      assert a + b == b;
    } else {
      assert (a + b)[1..] == a[1..] + b;
      AllIssuesAppend(a[1..], b);
    }
  }
}
