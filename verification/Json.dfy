/** JSON values as the model context holds them, and the length of their serialised form. */
module Json {
  import opened Wrappers

  /** The keys the context builder knows by name; every other key is `Other`. */
  datatype Key =
    | Mode
    | Subject
    | LatestUserMessage
    | PreviousAgentQuestion
    | AutomaticExecutionAllowed
    | ContextLimitWarnings
    | ContextSectionsOmitted
    | RelevantThreadContext
    | ClosedHistorySummary
    | PreprocessingNotes
    | TextSinceLastClosedRequest
    | NumericCandidates
    | NumericCandidatesFromLatestReply
    | PossibleOpenRequests
    | TargetOperations
    | StoredOperations
    | RequestReference
    | RequestStatus
    | SnippetContext
    | Other(name: string)
  {
    function Name(): string {
      match this
      case Mode => "mode"
      case Subject => "subject"
      case LatestUserMessage => "latest_user_message"
      case PreviousAgentQuestion => "previous_agent_question"
      case AutomaticExecutionAllowed => "automatic_execution_allowed"
      case ContextLimitWarnings => "context_limit_warnings"
      case ContextSectionsOmitted => "context_sections_omitted_due_to_limit"
      case RelevantThreadContext => "relevant_thread_context"
      case ClosedHistorySummary => "closed_history_summary"
      case PreprocessingNotes => "preprocessing_notes"
      case TextSinceLastClosedRequest => "text_since_last_closed_request"
      case NumericCandidates => "numeric_candidates"
      case NumericCandidatesFromLatestReply => "numeric_candidates_from_latest_reply"
      case PossibleOpenRequests => "possible_open_requests"
      case TargetOperations => "target_operations"
      case StoredOperations => "stored_operations"
      case RequestReference => "request_reference"
      case RequestStatus => "request_status"
      case SnippetContext => "context"
      case Other(name) => name
    }
  }

  /** Numbers keep their printed form and whether they are non-zero. */
  datatype Value =
    | Null
    | Bool(b: bool)
    | Number(text: string, nonZero: bool)
    | Str(s: string)
    | Arr(items: seq<Value>)
    | Obj(fields: Fields)

  /** A dictionary in insertion order. */
  type Fields = seq<Field>

  datatype Field = Field(key: Key, value: Value)

  predicate Truthy(v: Value) {
    match v
    case Null => false
    case Bool(b) => b
    case Number(_, nonZero) => nonZero
    case Str(s) => s != ""
    case Arr(items) => items != []
    case Obj(fields) => fields != []
  }

  // ---------------------------------------------------------------------------
  // Dictionary operations
  // ---------------------------------------------------------------------------

  function Get(fs: Fields, k: Key): Option<Value> {
    if fs == [] then None
    else if fs[0].key == k then Some(fs[0].value)
    else Get(fs[1..], k)
  }

  /** Overwrites in place, or appends. */
  function Set(fs: Fields, k: Key, v: Value): (r: Fields)
    ensures Get(r, k) == Some(v)
    ensures forall j: Key :: j != k ==> Get(r, j) == Get(fs, j)
  {
    if fs == [] then [Field(k, v)]
    else if fs[0].key == k then [Field(k, v)] + fs[1..]
    else [fs[0]] + Set(fs[1..], k, v)
  }

  function Drop(fs: Fields, k: Key): (r: Fields)
    ensures Get(r, k) == None
    ensures forall j: Key :: j != k ==> Get(r, j) == Get(fs, j)
  {
    if fs == [] then []
    else if fs[0].key == k then Drop(fs[1..], k)
    else [fs[0]] + Drop(fs[1..], k)
  }

  lemma {:induction false} SetSet(fs: Fields, k: Key, v: Value, w: Value)
    ensures Set(Set(fs, k, v), k, w) == Set(fs, k, w)
  {
    if fs != [] && fs[0].key != k {
      SetSet(fs[1..], k, v, w);
    }
  }

  lemma {:induction false} SetSame(fs: Fields, k: Key, v: Value)
    requires Get(fs, k) == Some(v)
    ensures Set(fs, k, v) == fs
  {
    if fs[0].key != k {
      SetSame(fs[1..], k, v);
    }
  }

  // ---------------------------------------------------------------------------
  // Length of `json.dumps(value, ensure_ascii=False, sort_keys=True)`
  // ---------------------------------------------------------------------------

  /** Section 7 of RFC 8259 as Python writes it; the order of the keys does not change the length. */
  function EscapedLength(c: char): nat {
    if c == '"' || c == '\\' || c == '\n' || c == '\r' || c == '\t' || c == '\U{8}' || c == '\U{C}' then 2
    else if c < ' ' then 6
    else 1
  }

  function CharsLength(s: string): nat {
    if s == "" then 0 else EscapedLength(s[0]) + CharsLength(s[1..])
  }

  function StringLength(s: string): nat {
    2 + CharsLength(s)
  }

  function Length(v: Value): nat {
    match v
    case Null => 4
    case Bool(b) => if b then 4 else 5
    case Number(text, _) => |text|
    case Str(s) => StringLength(s)
    case Arr(items) => 2 + ItemsLength(items)
    case Obj(fields) => 2 + FieldsLength(fields)
  }

  function ItemsLength(items: seq<Value>): nat {
    if items == [] then 0
    else if |items| == 1 then Length(items[0])
    else Length(items[0]) + 2 + ItemsLength(items[1..])
  }

  function FieldLength(f: Field): nat {
    StringLength(f.key.Name()) + 2 + Length(f.value)
  }

  function FieldsLength(fs: Fields): nat {
    if fs == [] then 0
    else if |fs| == 1 then FieldLength(fs[0])
    else FieldLength(fs[0]) + 2 + FieldsLength(fs[1..])
  }

  predicate Plain(c: char) {
    c >= ' ' && c != '"' && c != '\\'
  }

  lemma {:induction false} PlainLength(s: string)
    requires forall i :: 0 <= i < |s| ==> Plain(s[i])
    ensures CharsLength(s) == |s|
  {
    if s != "" {
      PlainLength(s[1..]);
    }
  }
}
