/**
 * The values `json.loads` produces, the dictionary and slicing operations the stages
 * apply to them, and the extraction of a JSON text from a fenced LLM reply.
 */
module JsonValues {
  import opened Wrappers
  import opened Text

  /** A decoded JSON value: `None`, bool, int, float, str, list or dict. */
  datatype Json =
    | JNull
    | JBool(b: bool)
    | JInt(i: int)
    | JFloat(r: real)
    | JStr(s: string)
    | JArr(items: seq<Json>)
    | JObj(fields: map<string, Json>)

  const EmptyList: Json := JArr([])
  const EmptyDict: map<string, Json> := map[]

  /** The Python type name that appears in TypeError and AttributeError messages. */
  function TypeName(j: Json): string {
    match j
    case JNull => "NoneType"
    case JBool(_) => "bool"
    case JInt(_) => "int"
    case JFloat(_) => "float"
    case JStr(_) => "str"
    case JArr(_) => "list"
    case JObj(_) => "dict"
  }

  /** Python's `m.get(k, d)`. */
  function Get(m: map<string, Json>, k: string, d: Json): (r: Json)
    ensures k in m ==> r == m[k]
    ensures k !in m ==> r == d
  {
    if k in m then m[k] else d
  }

  /** The `{'error': str(e)}` marker an enrichment stage stores on failure. */
  function ErrorMarker(msg: string): (m: map<string, Json>)
    ensures "error" in m && m["error"] == JStr(msg) && |m.Keys| == 1
  {
    map["error" := JStr(msg)]
  }

  /** The message of the AttributeError raised by `j.get(...)` on a value that is not a dict. */
  function NoGetMessage(j: Json): string {
    "'" + TypeName(j) + "' object has no attribute 'get'"
  }

  /** Python's `j[:n]`: a list or a string is sliced; any other value raises TypeError. */
  function Slice(j: Json, n: nat): (r: Option<Json>)
    ensures r.Some? <==> j.JArr? || j.JStr?
    ensures j.JArr? ==> r == Some(JArr(j.items[..Min(n, |j.items|)]))
    ensures j.JStr? ==> r == Some(JStr(j.s[..Min(n, |j.s|)]))
  {
    match j
    case JArr(items) => Some(JArr(items[..Min(n, |items|)]))
    case JStr(s) => Some(JStr(s[..Min(n, |s|)]))
    case _ => None
  }

  /**
   * The elements `for x in j` visits when j is a list or a string (a string yields
   * its one-character strings);  `None` for the other types.
   */
  function Elements(j: Json): (r: Option<seq<Json>>)
    ensures r.Some? <==> j.JArr? || j.JStr?
    ensures j.JArr? ==> r == Some(j.items)
    ensures j.JStr? ==> r.Some? && |r.value| == |j.s|
  {
    match j
    case JArr(items) => Some(items)
    case JStr(s) => Some(seq(|s|, i requires 0 <= i < |s| => JStr([s[i]])))
    case _ => None
  }

  /** What `', '.join(j)` needs: every element a string; `None` where join raises TypeError. */
  function JoinableStrings(j: Json): (r: Option<seq<string>>)
    ensures r.Some? ==> j.JArr? || j.JStr?
    ensures j.JArr? ==> (r.Some? <==> forall i :: 0 <= i < |j.items| ==> j.items[i].JStr?)
  {
    match j
    case JArr(items) =>
      if forall i :: 0 <= i < |items| ==> items[i].JStr? then
        Some(seq(|items|, i requires 0 <= i < |items| => items[i].s))
      else None
    case JStr(s) => Some(seq(|s|, i requires 0 <= i < |s| => [s[i]]))
    case _ => None
  }

  // ------------------------------------------------------------ fences

  const FenceOpen: string := "```json"
  const FenceClose: string := "```"

  /**
   * The text handed to `json.loads`: when the reply contains "```json", the
   * expression `content.split("```json")[1].split("```")[0]`; then `.strip()`.
   */
  function ExtractJsonText(content: string): string {
    var c := if Contains(content, FenceOpen) then Split(Split(content, FenceOpen)[1], FenceClose)[0] else content;
    Strip(c)
  }

  /** A reply without the opening fence is parsed whole, stripped. */
  lemma UnfencedReply(content: string)
    requires !Contains(content, FenceOpen)
    ensures ExtractJsonText(content) == Strip(content)
  {
  }

  /** The second piece of a split is the first piece of the split of the remainder. */
  lemma SplitSecond(s: string, sep: string, i: nat)
    requires |sep| > 0 && IndexOf(s, sep) == Some(i)
    ensures |Split(s, sep)| >= 2 && Split(s, sep)[1] == Split(s[i + |sep|..], sep)[0]
  {
    SplitTail(s, sep, i);
  }

  /** The first piece of  body + sep + rest,  when body lacks sep's first character, is body. */
  lemma FirstPiece(body: string, sep: string, rest: string)
    requires |sep| > 0 && sep[0] !in body
    ensures Split(body + sep + rest, sep)[0] == body
  {
    FirstOccurrenceAfter(body, sep, rest);
    SplitTail(body + sep + rest, sep, |body|);
  }

  /** In  body ``` post,  "```json" can start at none of the first |body| + 3 positions but |body|. */
  lemma OpenNotBefore(body: string, post: string, k: nat)
    requires '`' !in body && (post == [] || post[0] != '`')
    requires k < |body| + 3 && k != |body|
    ensures !OccursAt(body + FenceClose + post, FenceOpen, k)
  {
    var rest := body + FenceClose + post;
    if k < |body| {
      assert rest[k] == body[k];
      NotAtOtherChar(rest, FenceOpen, k);
    } else if k + 7 <= |rest| {
      assert rest[k..k + 7][3 - (k - |body|)] == rest[|body| + 3] == post[0];
    }
  }

  /** Inside  body ``` post , cutting at the next "```json" and then at "```" leaves body. */
  lemma BodyBeforeClose(body: string, post: string)
    requires '`' !in body && (post == [] || post[0] != '`')
    ensures Split(Split(body + FenceClose + post, FenceOpen)[0], FenceClose)[0] == body
  {
    var rest := body + FenceClose + post;
    var piece := Split(rest, FenceOpen)[0];
    if Contains(rest, FenceOpen) {
      var j := IndexOf(rest, FenceOpen).value;
      SplitTail(rest, FenceOpen, j);
      if j == |body| {
        assert piece == body;
        NotInFree(piece, FenceClose);
      } else {
        if j < |body| + 3 {
          OpenNotBefore(body, post, j);
        }
        var mid := rest[|body| + 3..j];
        assert piece == body + FenceClose + mid;
        FirstPiece(body, FenceClose, mid);
      }
    } else {
      assert piece == rest;
      FirstPiece(body, FenceClose, post);
    }
  }

  /**
   * A reply of the form  pre ```json body ``` post  (no backtick in pre or body, and
   * post not starting with one) yields exactly the stripped body.
   */
  lemma FencedReply(pre: string, body: string, post: string)
    requires '`' !in pre && '`' !in body && (post == [] || post[0] != '`')
    ensures ExtractJsonText(pre + FenceOpen + body + FenceClose + post) == Strip(body)
  {
    var rest := body + FenceClose + post;
    assert pre + FenceOpen + body + FenceClose + post == pre + FenceOpen + rest;
    FirstOccurrenceAfter(pre, FenceOpen, rest);
    SplitSecond(pre + FenceOpen + rest, FenceOpen, |pre|);
    BodyBeforeClose(body, post);
  }
}
