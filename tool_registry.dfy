/**
  The tool registry and dispatcher of the wrapper: the fixed table from tool
  name to handler, the lookup that raises for an unknown name, the extraction
  of each handler's arguments with `args.get`, and the forwarding of the call
  to the Manager. The Manager itself is not part of this model: it is an
  oracle that, given a method name and positional arguments, either returns
  a value or raises an exception, of class ValueError or of another class.
*/
module ToolRegistry {
  import opened Wrappers
  import opened Json
  import opened ToolCatalog
  import opened Distinctness

  /** A call on a Manager method: its name and its positional arguments. */
  datatype Invocation = Invocation(operation: string, args: seq<Value>)

  /** What a Manager method does: return a value, or raise with a message. */
  datatype Outcome = Returned(value: Value) | Threw(isValueError: bool, message: string)

  type Manager = Invocation -> Outcome

  /** The exceptions a tool call can raise. */
  datatype Fault =
      /** The ValueError of the lookup: `str()` of a name that is not a key of the table. */
    | UnknownTool(name: string)
      /** The TypeError of a membership test with a list or dict as the key. */
    | Unhashable(typeName: string)
      /** The AttributeError of calling `.get` on a value that is not a dict. */
    | NoGet(typeName: string)
      /** The TypeError of iterating over a value that is not iterable. */
    | NotIterable(typeName: string)
      /** An exception raised by the Manager method, passed on unchanged. */
    | HandlerFault(isValueError: bool, message: string)

  /** Whether the exception is an instance of ValueError. */
  function IsValueError(f: Fault): (valueError: bool)
    ensures f.UnknownTool? ==> valueError
    ensures (f.Unhashable? || f.NoGet? || f.NotIterable?) ==> !valueError
    ensures f.HandlerFault? ==> (valueError <==> f.isValueError)
  {
    match f
    case UnknownTool(_) => true
    case HandlerFault(isValueError, _) => isValueError
    case _ => false
  }

  /** `str(e)`; built-in messages follow CPython's wording. */
  function Message(f: Fault): (message: string)
    ensures f.UnknownTool? ==> message == "Unknown tool: " + f.name
    ensures f.HandlerFault? ==> message == f.message
    ensures f.NoGet? ==> message == "'" + f.typeName + "' object has no attribute 'get'"
  {
    match f
    case UnknownTool(name) => "Unknown tool: " + name
    case Unhashable(t) => "unhashable type: '" + t + "'"
    case NoGet(t) => "'" + t + "' object has no attribute 'get'"
    case NotIterable(t) => "'" + t + "' object is not iterable"
    case HandlerFault(_, message) => message
  }

  /** One argument a handler reads: `args.get(key)` or `args.get(key, default)`. */
  datatype ArgSpec = ArgSpec(key: string, default: Value)

  /** A handler: the Manager method it calls and the arguments it passes, in order. */
  datatype Handler = Handler(operation: string, args: seq<ArgSpec>)

  /** An argument read without a default, which is None when absent. */
  function Arg(key: string): ArgSpec
  {
    ArgSpec(key, Null)
  }

  /** The keys a handler reads, in the order it passes them. */
  function ArgKeys(specs: seq<ArgSpec>): (keys: seq<string>)
    ensures |keys| == |specs|
    ensures forall i :: 0 <= i < |specs| ==> keys[i] == specs[i].key
  {
    if specs == [] then [] else [specs[0].key] + ArgKeys(specs[1..])
  }

  /**
    The dispatch table, entry by entry in the order the dictionary literal
    lists them: each tool name with the handler it maps to.
  */
  function ToolTable(): (t: seq<(string, Handler)>)
    ensures |t| == 30
  {
    PostHandlers() + CommentHandlers() + GetHandlers() + InsightsHandlers() + ReactionHandlers() + MessagingHandlers()
  }

  /** The table's post operations. */
  function PostHandlers(): seq<(string, Handler)>
  {
    [
      ("post_to_facebook", Handler("post_to_facebook", [Arg("message")])),
      ("post_image_to_facebook", Handler("post_image_to_facebook", [Arg("image_url"), ArgSpec("caption", Str(""))])),
      ("schedule_post", Handler("schedule_post", [Arg("message"), Arg("publish_time")])),
      ("update_post", Handler("update_post", [Arg("post_id"), Arg("new_message")])),
      ("delete_post", Handler("delete_post", [Arg("post_id")]))
    ]
  }

  /** The table's comment operations. */
  function CommentHandlers(): seq<(string, Handler)>
  {
    [
      ("reply_to_comment", Handler("reply_to_comment", [Arg("post_id"), Arg("comment_id"), Arg("message")])),
      ("delete_comment", Handler("delete_comment", [Arg("comment_id")])),
      ("delete_comment_from_post", Handler("delete_comment_from_post", [Arg("post_id"), Arg("comment_id")])),
      ("filter_negative_comments", Handler("filter_negative_comments", [ArgSpec("comments", EmptyObject)]))
    ]
  }

  /** The table's get operations. */
  function GetHandlers(): seq<(string, Handler)>
  {
    [
      ("get_page_posts", Handler("get_page_posts", [])),
      ("get_post_comments", Handler("get_post_comments", [Arg("post_id")])),
      ("get_number_of_comments", Handler("get_number_of_comments", [Arg("post_id")])),
      ("get_number_of_likes", Handler("get_number_of_likes", [Arg("post_id")])),
      ("get_post_top_commenters", Handler("get_post_top_commenters", [Arg("post_id")])),
      ("get_page_fan_count", Handler("get_page_fan_count", [])),
      ("get_post_share_count", Handler("get_post_share_count", [Arg("post_id")]))
    ]
  }

  /** The table's insights operations. */
  function InsightsHandlers(): seq<(string, Handler)>
  {
    [
      ("get_post_insights", Handler("get_post_insights", [Arg("post_id")])),
      ("get_post_impressions", Handler("get_post_impressions", [Arg("post_id")])),
      ("get_post_impressions_unique", Handler("get_post_impressions_unique", [Arg("post_id")])),
      ("get_post_impressions_paid", Handler("get_post_impressions_paid", [Arg("post_id")])),
      ("get_post_impressions_organic", Handler("get_post_impressions_organic", [Arg("post_id")])),
      ("get_post_engaged_users", Handler("get_post_engaged_users", [Arg("post_id")])),
      ("get_post_clicks", Handler("get_post_clicks", [Arg("post_id")]))
    ]
  }

  /** The table's reaction operations. */
  function ReactionHandlers(): seq<(string, Handler)>
  {
    [
      ("get_post_reactions_like_total", Handler("get_post_reactions_like_total", [Arg("post_id")])),
      ("get_post_reactions_love_total", Handler("get_post_reactions_love_total", [Arg("post_id")])),
      ("get_post_reactions_wow_total", Handler("get_post_reactions_wow_total", [Arg("post_id")])),
      ("get_post_reactions_haha_total", Handler("get_post_reactions_haha_total", [Arg("post_id")])),
      ("get_post_reactions_sorry_total", Handler("get_post_reactions_sorry_total", [Arg("post_id")])),
      ("get_post_reactions_anger_total", Handler("get_post_reactions_anger_total", [Arg("post_id")]))
    ]
  }

  /** The table's messaging. */
  function MessagingHandlers(): seq<(string, Handler)>
  {
    [
      ("send_dm_to_user", Handler("send_dm_to_user", [Arg("user_id"), Arg("message")]))
    ]
  }

  /** The value an absent argument takes: '' for a caption, {} for comments, None otherwise. */
  function DefaultFor(key: string): Value
  {
    if key == "caption" then Str("") else if key == "comments" then EmptyObject else Null
  }

  /** The values that extracting `specs` from a dict gives: `d.get(key, default)` in order. */
  function Extract(d: map<string, Value>, specs: seq<ArgSpec>): (values: seq<Value>)
    ensures |values| == |specs|
    ensures forall i :: 0 <= i < |specs| ==> values[i] == Get(d, specs[i].key, specs[i].default)
  {
    if specs == [] then [] else [Get(d, specs[0].key, specs[0].default)] + Extract(d, specs[1..])
  }

  /** The names of a table's entries, in table order. */
  function TableKeys(t: seq<(string, Handler)>): seq<string>
  {
    seq(|t|, i requires 0 <= i < |t| => t[i].0)
  }

  /** No entry after position `i` of the literal has the name of entry `i`. */
  predicate LastOccurrence(t: seq<(string, Handler)>, i: nat)
    requires i < |t|
  {
    forall j :: i < j < |t| ==> t[j].0 != t[i].0
  }

  /** A dictionary literal: the entries inserted in order, a later one replacing an earlier one with the same key. */
  function ToMap(t: seq<(string, Handler)>): (m: map<string, Handler>)
    ensures forall i :: 0 <= i < |t| ==> t[i].0 in m
    ensures forall i :: 0 <= i < |t| && LastOccurrence(t, i) ==> m[t[i].0] == t[i].1
  {
    if t == [] then map[] else ToMap(t[..|t| - 1])[t[|t| - 1].0 := t[|t| - 1].1]
  }

  /** `tool_mapping`. */
  function ToolMapping(): map<string, Handler>
  {
    ToMap(ToolTable())
  }

  lemma {:induction false} ToMapKeys(t: seq<(string, Handler)>)
    ensures ToMap(t).Keys == Elements(TableKeys(t))
  {
    if t != [] {
      var p, key := t[..|t| - 1], t[|t| - 1].0;
      ToMapKeys(p);
      LastInsertKeys(t);
      TableKeysAppend(t);
      ElementsAppend(TableKeys(p), key);
    }
  }

  lemma LastInsertKeys(t: seq<(string, Handler)>)
    requires t != []
    ensures ToMap(t).Keys == ToMap(t[..|t| - 1]).Keys + {t[|t| - 1].0}
  {
  }

  lemma TableKeysAppend(t: seq<(string, Handler)>)
    requires t != []
    ensures TableKeys(t) == TableKeys(t[..|t| - 1]) + [t[|t| - 1].0]
  {
    assert TableKeys(t)[|t| - 1] == t[|t| - 1].0;
  }

  /** With no repeated key, every entry of the literal is what the dictionary holds under its key. */
  lemma ToMapAt(t: seq<(string, Handler)>, i: nat)
    requires Distinct(TableKeys(t))
    requires i < |t|
    ensures t[i].0 in ToMap(t) && ToMap(t)[t[i].0] == t[i].1
  {
    forall j | i < j < |t| ensures t[j].0 != t[i].0 {
      assert TableKeys(t)[i] != TableKeys(t)[j];
    }
    assert LastOccurrence(t, i);
  }

  /** The table's names, ordered by increasing fingerprint. */
  const NamesByFingerprint: seq<string> := [
    "update_post",
    "delete_post",
    "schedule_post",
    "get_page_posts",
    "delete_comment",
    "send_dm_to_user",
    "get_post_clicks",
    "post_to_facebook",
    "reply_to_comment",
    "get_post_comments",
    "get_post_insights",
    "get_page_fan_count",
    "get_number_of_likes",
    "get_post_impressions",
    "get_post_share_count",
    "post_image_to_facebook",
    "get_number_of_comments",
    "get_post_engaged_users",
    "get_post_top_commenters",
    "filter_negative_comments",
    "delete_comment_from_post",
    "get_post_impressions_paid",
    "get_post_impressions_unique",
    "get_post_impressions_organic",
    "get_post_reactions_wow_total",
    "get_post_reactions_haha_total",
    "get_post_reactions_like_total",
    "get_post_reactions_love_total",
    "get_post_reactions_anger_total",
    "get_post_reactions_sorry_total"
  ]

  /** Where each name of NamesByFingerprint stands in the table. */
  const TablePosition: seq<nat> := [3, 4, 2, 9, 6, 29, 22, 0, 5, 10, 16, 14, 12, 17, 15, 1, 11, 21, 13, 8, 7, 19, 18, 20, 25, 26, 23, 24, 28, 27]

  lemma FingerprintsIncrease()
    ensures forall k :: 0 <= k < |NamesByFingerprint| - 1 ==>
              Fingerprint(NamesByFingerprint[k]) < Fingerprint(NamesByFingerprint[k + 1])
  {
    FingerprintsIncreaseLow();
    FingerprintsIncreaseMiddle();
    FingerprintsIncreaseHigh();
  }

  lemma FingerprintsIncreaseLow()
    ensures forall k :: 0 <= k < 10 ==> Fingerprint(NamesByFingerprint[k]) < Fingerprint(NamesByFingerprint[k + 1])
  {
  }

  lemma FingerprintsIncreaseMiddle()
    ensures forall k :: 10 <= k < 20 ==> Fingerprint(NamesByFingerprint[k]) < Fingerprint(NamesByFingerprint[k + 1])
  {
  }

  lemma FingerprintsIncreaseHigh()
    ensures forall k :: 20 <= k < 29 ==> Fingerprint(NamesByFingerprint[k]) < Fingerprint(NamesByFingerprint[k + 1])
  {
  }

  lemma SortedNamesAreKeys()
    ensures Elements(NamesByFingerprint) <= Elements(TableKeys(ToolTable()))
  {
    SortedNamesAreKeysLow();
    SortedNamesAreKeysMiddle();
    SortedNamesAreKeysHigh();
  }

  lemma SortedNamesAreKeysLow()
    ensures forall k :: 0 <= k < 10 ==> NamesByFingerprint[k] in Elements(TableKeys(ToolTable()))
  {
    forall k | 0 <= k < 10
      ensures NamesByFingerprint[k] in Elements(TableKeys(ToolTable()))
    {
      assert TableKeys(ToolTable())[TablePosition[k]] == NamesByFingerprint[k];
    }
  }

  lemma SortedNamesAreKeysMiddle()
    ensures forall k :: 10 <= k < 20 ==> NamesByFingerprint[k] in Elements(TableKeys(ToolTable()))
  {
    forall k | 10 <= k < 20
      ensures NamesByFingerprint[k] in Elements(TableKeys(ToolTable()))
    {
      assert TableKeys(ToolTable())[TablePosition[k]] == NamesByFingerprint[k];
    }
  }

  lemma SortedNamesAreKeysHigh()
    ensures forall k :: 20 <= k < 30 ==> NamesByFingerprint[k] in Elements(TableKeys(ToolTable()))
  {
    forall k | 20 <= k < 30
      ensures NamesByFingerprint[k] in Elements(TableKeys(ToolTable()))
    {
      assert TableKeys(ToolTable())[TablePosition[k]] == NamesByFingerprint[k];
    }
  }

  /**
    No two entries of the dispatch table have the same name. The proof goes
    through the fingerprint ordering above instead of comparing all 435 pairs
    of names, which keeps the solver's work well inside its budget.
  */
  lemma ToolNamesDistinct()
    ensures Distinct(TableKeys(ToolTable()))
  {
    FingerprintsIncrease();
    IncreasingIsDistinct(NamesByFingerprint);
    DistinctElements(NamesByFingerprint);
    SortedNamesAreKeys();
    SubsetSize(Elements(NamesByFingerprint), Elements(TableKeys(ToolTable())));
    ElementsBound(TableKeys(ToolTable()));
    ElementsDistinct(TableKeys(ToolTable()));
  }

  /**
    What the catalog entry and the table entry of one tool have in common:
    the same name, a handler that calls the Manager method of that name, the
    advertised parameters in the order the handler passes them, the default
    of each argument fixed by its key, and a default other than None for
    every parameter the catalog marks optional.
  */
  ghost predicate EntryAgrees(d: ToolDescriptor, e: (string, Handler))
  {
    && d.name == e.0
    && e.1.operation == e.0
    && ParamNames(d.parameters) == ArgKeys(e.1.args)
    && (forall k :: 0 <= k < |e.1.args| ==> e.1.args[k].default == DefaultFor(e.1.args[k].key))
    && forall k :: 0 <= k < |d.parameters| && k < |e.1.args| && !d.parameters[k].required ==> e.1.args[k].default != Null
  }

  ghost predicate Agrees(tools: seq<ToolDescriptor>, table: seq<(string, Handler)>)
  {
    |tools| == |table| && forall i :: 0 <= i < |tools| ==> EntryAgrees(tools[i], table[i])
  }

  lemma AgreesConcat(c1: seq<ToolDescriptor>, t1: seq<(string, Handler)>, c2: seq<ToolDescriptor>, t2: seq<(string, Handler)>)
    requires Agrees(c1, t1) && Agrees(c2, t2)
    ensures Agrees(c1 + c2, t1 + t2)
  {
    forall i | 0 <= i < |c1 + c2| ensures EntryAgrees((c1 + c2)[i], (t1 + t2)[i]) {
      if i >= |c1| {
        assert (c1 + c2)[i] == c2[i - |c1|] && (t1 + t2)[i] == t2[i - |c1|];
      }
    }
  }

  lemma PostAgrees()
    ensures Agrees(PostTools(), PostHandlers())
  {
  }

  lemma CommentAgrees()
    ensures Agrees(CommentTools(), CommentHandlers())
  {
  }

  lemma GetAgrees()
    ensures Agrees(GetTools(), GetHandlers())
  {
  }

  lemma InsightsAgrees()
    ensures Agrees(InsightsTools(), InsightsHandlers())
  {
  }

  lemma ReactionAgrees()
    ensures Agrees(ReactionTools(), ReactionHandlers())
  {
  }

  lemma MessagingAgrees()
    ensures Agrees(MessagingTools(), MessagingHandlers())
  {
  }

  lemma EarlyGroupsAgree()
    ensures Agrees(PostTools() + CommentTools() + GetTools(), PostHandlers() + CommentHandlers() + GetHandlers())
  {
    PostAgrees();
    CommentAgrees();
    GetAgrees();
    AgreesConcat(PostTools(), PostHandlers(), CommentTools(), CommentHandlers());
    AgreesConcat(PostTools() + CommentTools(), PostHandlers() + CommentHandlers(), GetTools(), GetHandlers());
  }

  lemma LateGroupsAgree()
    ensures Agrees(InsightsTools() + ReactionTools() + MessagingTools(), InsightsHandlers() + ReactionHandlers() + MessagingHandlers())
  {
    InsightsAgrees();
    ReactionAgrees();
    MessagingAgrees();
    AgreesConcat(InsightsTools(), InsightsHandlers(), ReactionTools(), ReactionHandlers());
    AgreesConcat(InsightsTools() + ReactionTools(), InsightsHandlers() + ReactionHandlers(), MessagingTools(), MessagingHandlers());
  }

  /** The catalog and the dispatch table describe the same tools, entry by entry. */
  lemma CatalogAgreesWithTable()
    ensures Agrees(ListTools(), ToolTable())
  {
    EarlyGroupsAgree();
    LateGroupsAgree();
    var c, t := PostTools() + CommentTools() + GetTools(), PostHandlers() + CommentHandlers() + GetHandlers();
    var c', t' := InsightsTools() + ReactionTools() + MessagingTools(), InsightsHandlers() + ReactionHandlers() + MessagingHandlers();
    AgreesConcat(c, t, c', t');
    assert ListTools() == c + c';
    assert ToolTable() == t + t';
  }

  /** `tool_mapping` holds, under each name of the table, that entry's handler, and nothing else. */
  lemma MappingMatchesTable()
    ensures ToolMapping().Keys == Elements(TableKeys(ToolTable()))
    ensures forall i :: 0 <= i < |ToolTable()| ==>
              ToolTable()[i].0 in ToolMapping() && ToolMapping()[ToolTable()[i].0] == ToolTable()[i].1
  {
    ToMapKeys(ToolTable());
    ToolNamesDistinct();
    forall i | 0 <= i < |ToolTable()|
      ensures ToolTable()[i].0 in ToolMapping() && ToolMapping()[ToolTable()[i].0] == ToolTable()[i].1
    {
      ToMapAt(ToolTable(), i);
    }
  }

  /** The table position of a name of `tool_mapping`. */
  lemma MappingPosition(s: string) returns (i: nat)
    requires s in ToolMapping()
    ensures i < |ToolTable()| && i < |ListTools()|
    ensures ToolTable()[i].0 == s && ToolMapping()[s] == ToolTable()[i].1
    ensures ListTools()[i].name == s && EntryAgrees(ListTools()[i], ToolTable()[i])
  {
    MappingMatchesTable();
    CatalogAgreesWithTable();
    var k :| 0 <= k < |TableKeys(ToolTable())| && TableKeys(ToolTable())[k] == s;
    i := k;
  }

  /**
    Every handler of `tool_mapping` calls the Manager method of its own
    name, and each argument it reads without a value in the dict takes the
    default fixed by the argument's key.
  */
  lemma HandlersCallSameNamedMethod(s: string)
    requires s in ToolMapping()
    ensures ToolMapping()[s].operation == s
    ensures forall k :: 0 <= k < |ToolMapping()[s].args| ==>
              ToolMapping()[s].args[k].default == DefaultFor(ToolMapping()[s].args[k].key)
  {
    var i := MappingPosition(s);
  }

  /**
    The catalog and `tool_mapping` describe the same thirty tools: the
    catalog's names are pairwise distinct and are exactly the mapping's
    keys, and each advertised tool's parameters are the arguments its
    handler reads, in the order it passes them.
  */
  lemma CatalogMatchesMapping()
    ensures |ListTools()| == |ToolMapping()| == 30
    ensures Distinct(Names(ListTools()))
    ensures Elements(Names(ListTools())) == ToolMapping().Keys
    ensures forall i :: 0 <= i < |ListTools()| ==>
              ListTools()[i].name in ToolMapping() &&
              ArgKeys(ToolMapping()[ListTools()[i].name].args) == ParamNames(ListTools()[i].parameters)
  {
    CatalogNamesAreTableNames();
    MappingMatchesTable();
    ToolNamesDistinct();
    DistinctElements(TableKeys(ToolTable()));
    forall i | 0 <= i < |ListTools()|
      ensures ListTools()[i].name in ToolMapping()
      ensures ArgKeys(ToolMapping()[ListTools()[i].name].args) == ParamNames(ListTools()[i].parameters)
    {
      assert ListTools()[i].name == ToolTable()[i].0;
    }
  }

  /** The catalog lists the table's names, in the table's order. */
  lemma CatalogNamesAreTableNames()
    ensures Names(ListTools()) == TableKeys(ToolTable())
    ensures Agrees(ListTools(), ToolTable())
  {
    CatalogAgreesWithTable();
    assert Names(ListTools()) == TableKeys(ToolTable());
  }

  /**
    The membership test and lookup of `call_tool`: a list or dict name
    cannot be hashed, and any other name that is not a key raises the
    ValueError, whose message shows `str()` of the name.
  */
  function Lookup(name: Value): (r: Result<Handler, Fault>)
    ensures r.Ok? <==> name.Str? && name.s in ToolMapping()
    ensures r.Ok? ==> r.value == ToolMapping()[name.s]
    ensures (name.List? || name.Object?) ==> r == Err(Unhashable(TypeName(name)))
    ensures !(name.List? || name.Object? || r.Ok?) ==> r == Err(UnknownTool(PyStr(name)))
  {
    match name
    case List(_) => Err(Unhashable("list"))
    case Object(_) => Err(Unhashable("dict"))
    case Str(s) => if s in ToolMapping() then Ok(ToolMapping()[s]) else Err(UnknownTool(s))
    case _ => Err(UnknownTool(PyStr(name)))
  }

  /**
    Applying a handler's lambda to `arguments`: the `args.get` calls in
    order, which need a dict unless the handler reads no argument at all.
  */
  function Bind(h: Handler, arguments: Value): (r: Result<Invocation, Fault>)
    ensures r.Ok? <==> h.args == [] || arguments.Object?
    ensures r.Ok? ==> r.value.operation == h.operation && |r.value.args| == |h.args|
    ensures r.Ok? && arguments.Object? ==>
              forall i :: 0 <= i < |h.args| ==> r.value.args[i] == Get(arguments.fields, h.args[i].key, h.args[i].default)
    ensures r.Err? ==> r.error == NoGet(TypeName(arguments))
  {
    if h.args == [] then Ok(Invocation(h.operation, []))
    else if arguments.Object? then Ok(Invocation(h.operation, Extract(arguments.fields, h.args)))
    else Err(NoGet(TypeName(arguments)))
  }

  /** The Manager call that `call_tool(name, arguments)` makes, or the exception it raises before making one. */
  function Dispatch(name: Value, arguments: Value): (r: Result<Invocation, Fault>)
    ensures r.Ok? <==> name.Str? && name.s in ToolMapping() && (ToolMapping()[name.s].args == [] || arguments.Object?)
    ensures r.Ok? ==> r.value.operation == name.s
  {
    match Lookup(name)
    case Err(f) => Err(f)
    case Ok(h) => HandlersCallSameNamedMethod(name.s); Bind(h, arguments)
  }

  /** `call_tool`: the Manager's result, or the exception raised by the lookup, by `.get` or by the Manager. */
  function CallTool(manager: Manager, name: Value, arguments: Value): (r: Result<Value, Fault>)
    ensures (name.List? || name.Object?) ==> r == Err(Unhashable(TypeName(name)))
    ensures !name.List? && !name.Object? && !(name.Str? && name.s in ToolMapping()) ==> r == Err(UnknownTool(PyStr(name)))
    ensures name.Str? && name.s in ToolMapping() && arguments.Object? ==>
              var outcome := manager(Invocation(name.s, Extract(arguments.fields, ToolMapping()[name.s].args)));
              r == if outcome.Returned? then Ok(outcome.value) else Err(HandlerFault(outcome.isValueError, outcome.message))
  {
    match Dispatch(name, arguments)
    case Err(f) => Err(f)
    case Ok(call) =>
      match manager(call)
      case Returned(v) => Ok(v)
      case Threw(isValueError, message) => Err(HandlerFault(isValueError, message))
  }

  /**
    A string name that is not a tool raises `ValueError("Unknown tool: <name>")`
    whatever the arguments, and no Manager method is called: the outcome is
    the same for every Manager.
  */
  lemma UnknownToolRaisesValueError(m1: Manager, m2: Manager, s: string, arguments: Value)
    requires s !in ToolMapping()
    ensures CallTool(m1, Str(s), arguments) == Err(UnknownTool(s))
    ensures IsValueError(CallTool(m1, Str(s), arguments).error)
    ensures Message(CallTool(m1, Str(s), arguments).error) == "Unknown tool: " + s
    ensures CallTool(m1, Str(s), arguments) == CallTool(m2, Str(s), arguments)
  {
  }

  /**
    A mapped tool given a dict of arguments is never rejected: it calls the
    Manager method of its own name with, for each argument it reads, the
    dict's value or, when the key is absent, '' for `caption`, {} for
    `comments` and None for every other key.
  */
  lemma MissingArgumentsDefault(s: string, fields: map<string, Value>)
    requires s in ToolMapping()
    ensures Dispatch(Str(s), Object(fields)).Ok?
    ensures Dispatch(Str(s), Object(fields)).value.operation == s
    ensures var call := Dispatch(Str(s), Object(fields)).value;
            var specs := ToolMapping()[s].args;
            |call.args| == |specs| &&
            forall k :: 0 <= k < |specs| ==>
              call.args[k] == (if specs[k].key in fields then fields[specs[k].key]
                               else if specs[k].key == "caption" then Str("")
                               else if specs[k].key == "comments" then EmptyObject
                               else Null)
  {
    HandlersCallSameNamedMethod(s);
  }

  /**
    The handler's result or exception comes back unchanged: a value the
    Manager returns is the result, and an exception it raises is re-raised
    with its class and message.
  */
  lemma ForwardsOutcomeUnchanged(manager: Manager, s: string, fields: map<string, Value>)
    requires s in ToolMapping()
    ensures var call := Dispatch(Str(s), Object(fields)).value;
            call.operation == s &&
            (manager(call).Returned? ==> CallTool(manager, Str(s), Object(fields)) == Ok(manager(call).value)) &&
            (manager(call).Threw? ==>
               && CallTool(manager, Str(s), Object(fields)).Err?
               && IsValueError(CallTool(manager, Str(s), Object(fields)).error) == manager(call).isValueError
               && Message(CallTool(manager, Str(s), Object(fields)).error) == manager(call).message)
  {
  }

  /** `get_page_posts` and `get_page_fan_count` read no argument, so they call the Manager the same way whatever they are given. */
  lemma ToolsWithoutArguments(manager: Manager, arguments: Value)
    ensures "get_page_posts" in ToolMapping() && "get_page_fan_count" in ToolMapping()
    ensures Dispatch(Str("get_page_posts"), arguments) == Ok(Invocation("get_page_posts", []))
    ensures Dispatch(Str("get_page_fan_count"), arguments) == Ok(Invocation("get_page_fan_count", []))
    ensures CallTool(manager, Str("get_page_posts"), arguments) == CallTool(manager, Str("get_page_posts"), EmptyObject)
    ensures CallTool(manager, Str("get_page_fan_count"), arguments) == CallTool(manager, Str("get_page_fan_count"), EmptyObject)
  {
    MappingMatchesTable();
    assert ToolTable()[9].0 == "get_page_posts";
    assert ToolTable()[14].0 == "get_page_fan_count";
  }

  /** A parameter the catalog advertises as optional is read with a default other than None. */
  lemma OptionalParametersHaveDefaults(i: nat, k: nat)
    requires i < |ListTools()| && k < |ListTools()[i].parameters|
    requires !ListTools()[i].parameters[k].required
    ensures ListTools()[i].name in ToolMapping()
    ensures k < |ToolMapping()[ListTools()[i].name].args|
    ensures ToolMapping()[ListTools()[i].name].args[k].default != Null
  {
    CatalogAgreesWithTable();
    MappingMatchesTable();
  }
}
