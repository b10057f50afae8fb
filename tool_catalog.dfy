/**
  The catalog the wrapper advertises: one descriptor per tool, with each
  parameter's declared type and whether it is required. The wording shown
  beside each tool and parameter is kept apart from the descriptors, in
  ToolWording, so that reasoning about names and parameters never has to
  look at it.
*/
module ToolCatalog {
  import opened Json

  /** The declared type of a parameter. */
  datatype ParamKind = StringParam | IntegerParam | ObjectParam

  datatype ParamDecl = ParamDecl(name: string, kind: ParamKind, required: bool)

  /** The human-readable text of one catalog entry: the tool's summary and each parameter's description. */
  datatype Wording = Wording(summary: string, params: map<string, string>)

  datatype ToolDescriptor = ToolDescriptor(name: string, parameters: seq<ParamDecl>)
  {
    /** The description the catalog shows for this tool. */
    function Description(): string
    {
      ToolWording(name).summary
    }

    /** The description the catalog shows for one of this tool's parameters. */
    function ParamDescription(param: string): string
    {
      var w := ToolWording(name);
      if param in w.params then w.params[param] else ""
    }
  }

  /** The type name a descriptor shows for a parameter kind. */
  function KindName(k: ParamKind): (name: string)
    ensures name in {"string", "integer", "object"}
  {
    match k
    case StringParam => "string"
    case IntegerParam => "integer"
    case ObjectParam => "object"
  }

  /** The names of the tools in a catalog, in catalog order. */
  function Names(tools: seq<ToolDescriptor>): seq<string>
  {
    seq(|tools|, i requires 0 <= i < |tools| => tools[i].name)
  }

  /** The names of a tool's parameters, in declaration order. */
  function ParamNames(ps: seq<ParamDecl>): (names: seq<string>)
    ensures |names| == |ps|
    ensures forall i :: 0 <= i < |ps| ==> names[i] == ps[i].name
  {
    if ps == [] then [] else [ps[0].name] + ParamNames(ps[1..])
  }

  /** A parameter's entry in a tool's `parameters` dict. */
  function ParamJson(tool: ToolDescriptor, p: ParamDecl): (v: Value)
    ensures v.Object? && v.fields.Keys == {"type", "required", "description"}
    ensures v.fields["type"] == Str(KindName(p.kind)) && v.fields["required"] == Bool(p.required)
  {
    Object(map["type" := Str(KindName(p.kind)), "required" := Bool(p.required), "description" := Str(tool.ParamDescription(p.name))])
  }

  /** A tool's `parameters` dict: one entry per parameter, keyed by its name. */
  function ParamsJson(tool: ToolDescriptor, ps: seq<ParamDecl>): (fields: map<string, Value>)
    ensures fields.Keys == set k | 0 <= k < |ps| :: ps[k].name
    ensures forall k :: 0 <= k < |ps| ==> fields[ps[k].name].Object?
    ensures forall k :: 0 <= k < |ps| && (forall j :: k < j < |ps| ==> ps[j].name != ps[k].name) ==>
              fields[ps[k].name] == ParamJson(tool, ps[k])
  {
    if ps == [] then map[]
    else
      var rest := ParamsJson(tool, ps[..|ps| - 1]);
      assert forall k :: 0 <= k < |ps| - 1 ==> ps[..|ps| - 1][k] == ps[k];
      rest[ps[|ps| - 1].name := ParamJson(tool, ps[|ps| - 1])]
  }

  /** A catalog entry as `list_tools` returns it: a dict with the tool's name, description and parameters. */
  function ToolJson(d: ToolDescriptor): (v: Value)
    ensures v.Object? && v.fields.Keys == {"name", "description", "parameters"}
    ensures v.fields["name"] == Str(d.name)
    ensures v.fields["parameters"].Object? && v.fields["parameters"].fields.Keys == set k | 0 <= k < |d.parameters| :: d.parameters[k].name
    ensures forall k :: 0 <= k < |d.parameters| && (forall j :: k < j < |d.parameters| ==> d.parameters[j].name != d.parameters[k].name) ==>
              v.fields["parameters"].fields[d.parameters[k].name] == ParamJson(d, d.parameters[k])
  {
    Object(map["name" := Str(d.name), "description" := Str(d.Description()), "parameters" := Object(ParamsJson(d, d.parameters))])
  }

  /** Every tool the wrapper lists, in the order it lists them. */
  function ListTools(): (tools: seq<ToolDescriptor>)
    ensures |tools| == 30
  {
    PostTools() + CommentTools() + GetTools() + InsightsTools() + ReactionTools() + MessagingTools()
  }

  /** The catalog's post operations. */
  function PostTools(): seq<ToolDescriptor>
  {
    [
      ToolDescriptor("post_to_facebook", [
        ParamDecl("message", StringParam, true)
      ]),
      ToolDescriptor("post_image_to_facebook", [
        ParamDecl("image_url", StringParam, true),
        ParamDecl("caption", StringParam, false)
      ]),
      ToolDescriptor("schedule_post", [
        ParamDecl("message", StringParam, true),
        ParamDecl("publish_time", IntegerParam, true)
      ]),
      ToolDescriptor("update_post", [
        ParamDecl("post_id", StringParam, true),
        ParamDecl("new_message", StringParam, true)
      ]),
      ToolDescriptor("delete_post", [
        ParamDecl("post_id", StringParam, true)
      ])
    ]
  }

  /** The catalog's comment operations. */
  function CommentTools(): seq<ToolDescriptor>
  {
    [
      ToolDescriptor("reply_to_comment", [
        ParamDecl("post_id", StringParam, true),
        ParamDecl("comment_id", StringParam, true),
        ParamDecl("message", StringParam, true)
      ]),
      ToolDescriptor("delete_comment", [
        ParamDecl("comment_id", StringParam, true)
      ]),
      ToolDescriptor("delete_comment_from_post", [
        ParamDecl("post_id", StringParam, true),
        ParamDecl("comment_id", StringParam, true)
      ]),
      ToolDescriptor("filter_negative_comments", [
        ParamDecl("comments", ObjectParam, true)
      ])
    ]
  }

  /** The catalog's get operations. */
  function GetTools(): seq<ToolDescriptor>
  {
    [
      ToolDescriptor("get_page_posts", []),
      ToolDescriptor("get_post_comments", [
        ParamDecl("post_id", StringParam, true)
      ]),
      ToolDescriptor("get_number_of_comments", [
        ParamDecl("post_id", StringParam, true)
      ]),
      ToolDescriptor("get_number_of_likes", [
        ParamDecl("post_id", StringParam, true)
      ]),
      ToolDescriptor("get_post_top_commenters", [
        ParamDecl("post_id", StringParam, true)
      ]),
      ToolDescriptor("get_page_fan_count", []),
      ToolDescriptor("get_post_share_count", [
        ParamDecl("post_id", StringParam, true)
      ])
    ]
  }

  /** The catalog's insights operations. */
  function InsightsTools(): seq<ToolDescriptor>
  {
    [
      ToolDescriptor("get_post_insights", [
        ParamDecl("post_id", StringParam, true)
      ]),
      ToolDescriptor("get_post_impressions", [
        ParamDecl("post_id", StringParam, true)
      ]),
      ToolDescriptor("get_post_impressions_unique", [
        ParamDecl("post_id", StringParam, true)
      ]),
      ToolDescriptor("get_post_impressions_paid", [
        ParamDecl("post_id", StringParam, true)
      ]),
      ToolDescriptor("get_post_impressions_organic", [
        ParamDecl("post_id", StringParam, true)
      ]),
      ToolDescriptor("get_post_engaged_users", [
        ParamDecl("post_id", StringParam, true)
      ]),
      ToolDescriptor("get_post_clicks", [
        ParamDecl("post_id", StringParam, true)
      ])
    ]
  }

  /** The catalog's reaction operations. */
  function ReactionTools(): seq<ToolDescriptor>
  {
    [
      ToolDescriptor("get_post_reactions_like_total", [
        ParamDecl("post_id", StringParam, true)
      ]),
      ToolDescriptor("get_post_reactions_love_total", [
        ParamDecl("post_id", StringParam, true)
      ]),
      ToolDescriptor("get_post_reactions_wow_total", [
        ParamDecl("post_id", StringParam, true)
      ]),
      ToolDescriptor("get_post_reactions_haha_total", [
        ParamDecl("post_id", StringParam, true)
      ]),
      ToolDescriptor("get_post_reactions_sorry_total", [
        ParamDecl("post_id", StringParam, true)
      ]),
      ToolDescriptor("get_post_reactions_anger_total", [
        ParamDecl("post_id", StringParam, true)
      ])
    ]
  }

  /** The catalog's messaging operation. */
  function MessagingTools(): seq<ToolDescriptor>
  {
    [
      ToolDescriptor("send_dm_to_user", [
        ParamDecl("user_id", StringParam, true),
        ParamDecl("message", StringParam, true)
      ])
    ]
  }

  /** The wording the catalog shows for each tool and its parameters. */
  function ToolWording(name: string): Wording
  {
    match name
    case "post_to_facebook" =>
      Wording("Create a new Facebook Page post with a text message",
        map["message" := "The message to post"])
    case "post_image_to_facebook" =>
      Wording("Post an image with a caption to the Facebook page",
        map["image_url" := "URL of the image to post", "caption" := "Caption for the image"])
    case "schedule_post" =>
      Wording("Schedule a new post for future publishing",
        map["message" := "The message to schedule", "publish_time" := "Unix timestamp for when to publish"])
    case "update_post" =>
      Wording("Update an existing post's message",
        map["post_id" := "ID of the post to update", "new_message" := "New message content"])
    case "delete_post" =>
      Wording("Delete a specific post from the Facebook Page",
        map["post_id" := "ID of the post to delete"])
    case "reply_to_comment" =>
      Wording("Reply to a specific comment on a Facebook post",
        map["post_id" := "ID of the post", "comment_id" := "ID of the comment to reply to", "message" := "Reply message"])
    case "delete_comment" =>
      Wording("Delete a specific comment from the Page",
        map["comment_id" := "ID of the comment to delete"])
    case "delete_comment_from_post" =>
      Wording("Delete a comment from a specific post",
        map["post_id" := "ID of the post", "comment_id" := "ID of the comment to delete"])
    case "filter_negative_comments" =>
      Wording("Filter comments for basic negative sentiment",
        map["comments" := "Comments object to filter"])
    case "get_page_posts" =>
      Wording("Fetch the most recent posts on the Page",
        map[])
    case "get_post_comments" =>
      Wording("Retrieve all comments for a given post",
        map["post_id" := "ID of the post"])
    case "get_number_of_comments" =>
      Wording("Count the number of comments on a given post",
        map["post_id" := "ID of the post"])
    case "get_number_of_likes" =>
      Wording("Return the number of likes on a post",
        map["post_id" := "ID of the post"])
    case "get_post_top_commenters" =>
      Wording("Get the top commenters on a post",
        map["post_id" := "ID of the post"])
    case "get_page_fan_count" =>
      Wording("Get the Page's total fan/like count",
        map[])
    case "get_post_share_count" =>
      Wording("Get the number of shares for a post",
        map["post_id" := "ID of the post"])
    case "get_post_insights" =>
      Wording("Fetch all insights metrics (impressions, reactions, clicks, etc)",
        map["post_id" := "ID of the post"])
    case "get_post_impressions" =>
      Wording("Fetch total impressions of a post",
        map["post_id" := "ID of the post"])
    case "get_post_impressions_unique" =>
      Wording("Fetch unique impressions of a post",
        map["post_id" := "ID of the post"])
    case "get_post_impressions_paid" =>
      Wording("Fetch paid impressions of a post",
        map["post_id" := "ID of the post"])
    case "get_post_impressions_organic" =>
      Wording("Fetch organic impressions of a post",
        map["post_id" := "ID of the post"])
    case "get_post_engaged_users" =>
      Wording("Fetch number of engaged users",
        map["post_id" := "ID of the post"])
    case "get_post_clicks" =>
      Wording("Fetch number of post clicks",
        map["post_id" := "ID of the post"])
    case "get_post_reactions_like_total" =>
      Wording("Fetch number of 'Like' reactions",
        map["post_id" := "ID of the post"])
    case "get_post_reactions_love_total" =>
      Wording("Fetch number of 'Love' reactions",
        map["post_id" := "ID of the post"])
    case "get_post_reactions_wow_total" =>
      Wording("Fetch number of 'Wow' reactions",
        map["post_id" := "ID of the post"])
    case "get_post_reactions_haha_total" =>
      Wording("Fetch number of 'Haha' reactions",
        map["post_id" := "ID of the post"])
    case "get_post_reactions_sorry_total" =>
      Wording("Fetch number of 'Sorry' reactions",
        map["post_id" := "ID of the post"])
    case "get_post_reactions_anger_total" =>
      Wording("Fetch number of 'Anger' reactions",
        map["post_id" := "ID of the post"])
    case "send_dm_to_user" =>
      Wording("Send a direct message to a user",
        map["user_id" := "ID of the user to message", "message" := "Message to send"])
    case _ => Wording("", map[])
  }
}
