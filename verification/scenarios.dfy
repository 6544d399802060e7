/** Concrete inputs: the truncation and length rules on small node lists,
    and one end-to-end request through each surface. */
module Scenarios {
  import opened Wrappers
  import opened Text
  import opened Extraction
  import opened Scraper
  import opened Dispatch

  /** Eight experience node texts in document order. */
  function Jobs(): seq<Option<string>> {
    [
    Some("Dev at Acme Co"), Some("Dev at Initech"), Some("Dev at Globex"), Some("Dev at Hooli"),
    Some("CTO at Umbrella"), Some("VP at Stark Co"), Some("CEO at Wayne"), Some("Advisor at Cyber")]
  }

  /** Every job title above reads as an acceptable experience entry. */
  lemma JobsAccepted()
    ensures forall k | 0 <= k < |Jobs()| :: Jobs()[k].Some? && Entry(ExperienceRule, Jobs()[k].value)
  {
  }

  /** Eight long experience nodes: exactly the first five, in order. */
  lemma EightExperienceNodes()
    ensures |Collect(ExperienceRule, Jobs())| == 5
    ensures forall k | 0 <= k < 5 :: Collect(ExperienceRule, Jobs())[k] == Jobs()[k].value
  {
    var w := Jobs()[..5];
    assert Window(ExperienceRule, Jobs()) == w;
    JobsAccepted();
    KeepAccepted(ExperienceRule, w);
  }

  /** The length test is strict: "Intern" is too short for experience. */
  lemma InternDropped()
    ensures NodeEntry(ExperienceRule, Some("Intern")) == []
  {
    StripStripped("Intern");
  }

  /** A ten-character title fails `len(text) > 10`. */
  lemma TenCharactersDropped()
    ensures NodeEntry(ExperienceRule, Some("Consultant")) == []
  {
    StripStripped("Consultant");
  }

  /** A padded long title is kept, stripped. */
  lemma PaddedTitleKept()
    ensures NodeEntry(ExperienceRule, Some("  " + "Software Engineer at Acme" + "\n"))
         == ["Software Engineer at Acme"]
  {
    StripPadding("  ", "Software Engineer at Acme", "\n");
  }

  /** A whitespace-only skill strips to the empty string and is dropped. */
  lemma BlankSkillDropped()
    ensures NodeEntry(SkillsRule, Some(" \t ")) == []
  {
    StripEmptyIff(" \t ");
  }

  /** Skills have no length threshold beyond non-emptiness. */
  lemma ShortSkillKept()
    ensures NodeEntry(SkillsRule, Some("Go")) == ["Go"]
  {
    StripStripped("Go");
  }

  /** A too-short first node followed by seven long ones. */
  function ShortThenLong(): seq<Option<string>> {
    [Some("Intern")] + Jobs()[..7]
  }

  /** Truncation before filtering: when the first of eight nodes is too short,
      only four entries survive. */
  lemma ShortFirstNode()
    ensures |Collect(ExperienceRule, ShortThenLong())| == 4
  {
    var nodes := ShortThenLong();
    var intern := nodes[..1];
    InternDropped();
    assert Keep(ExperienceRule, intern) == [] by { assert intern[1..] == []; }
    assert Window(ExperienceRule, nodes) == intern + Jobs()[..4];
    KeepAppend(ExperienceRule, intern, Jobs()[..4]);
    JobsAccepted();
    KeepAccepted(ExperienceRule, Jobs()[..4]);
  }

  /** Dropping short texts first and truncating afterwards would keep five. */
  lemma ShortFirstNodeFilterFirst()
    ensures |FilterThenTruncate(ExperienceRule, ShortThenLong())| == 5
  {
    var nodes := ShortThenLong();
    var intern := nodes[..1];
    InternDropped();
    assert Keep(ExperienceRule, intern) == [] by { assert intern[1..] == []; }
    assert nodes == intern + Jobs()[..7];
    KeepAppend(ExperienceRule, intern, Jobs()[..7]);
    JobsAccepted();
    KeepAccepted(ExperienceRule, Jobs()[..7]);
  }

  /** Removing a failing node from inside the window is not neutral: the node
      just past the window slides in. */
  lemma FailureInsideWindow()
    ensures |Collect(EducationRule, [None] + Jobs()[..3])| == 2
    ensures |Collect(EducationRule, Jobs()[..3])| == 3
  {
    var failed: seq<Option<string>> := [None];
    var nodes := failed + Jobs()[..3];
    JobsAccepted();
    assert forall k | 0 <= k < 3 :: Entry(EducationRule, Jobs()[k].value);
    assert Window(EducationRule, nodes) == failed + Jobs()[..2];
    KeepSkipsFailure(EducationRule, [], Jobs()[..2]);
    assert [] + failed + Jobs()[..2] == failed + Jobs()[..2];
    KeepAccepted(EducationRule, Jobs()[..2]);
    KeepAccepted(EducationRule, Jobs()[..3]);
  }

  const JaneUrl := "https://example.com/in/jane"

  /** A page whose only matched element is the heading "Jane Doe". */
  const JanePage := Page(Found("Jane Doe"), Absent, Absent, AboutQuery(Missing, Missing, Absent),
                         Matched([]), Matched([]), Matched([]))

  const Jane := Profile("Jane Doe", "", "", "", [], [], [], JaneUrl)

  /** Extraction of that page: the name, nothing else, and the URL. */
  lemma JaneExtract()
    ensures Extract(JaneUrl, JanePage) == Jane
  {
    StripStripped("Jane Doe");
  }

  /** End to end on the direct endpoint with a configured cookie. */
  lemma JaneDoeDirect()
    ensures ScrapeProfile(JaneUrl, Backend("token", Ready(JanePage))) == Ok(true, Jane)
  {
    JaneExtract();
  }

  const JaneRequest := RpcRequest(7, "tools/call", Params(Some("get_person_profile"),
                                                          ArgumentsObject(Some(JaneUrl))))

  /** The same request as a tool call. */
  lemma JaneDoeToolCall()
    ensures HandleRpc(JaneRequest, Backend("token", Ready(JanePage))) == RpcResponse("2.0", 7, ResultReply(Jane))
  {
    var b := Backend("token", Ready(JanePage));
    assert ReachesScrape(JaneRequest);
    ScrapeOutcomeCarried(JaneRequest, b);
    JaneExtract();
  }

  /** The rejections of the tool call surface. */
  lemma UnknownMethod(b: Backend)
    ensures HandleRpc(RpcRequest(8, "tools/list", Params(None, NoArguments)), b).reply
         == ErrorReply("Unknown method: tools/list")
  {
  }

  /** A missing tool name is rendered as Python renders `None`. */
  lemma MissingToolName(b: Backend)
    ensures HandleRpc(RpcRequest(9, "tools/call", Params(None, NoArguments)), b).reply
         == ErrorReply("Unknown tool: None")
  {
  }

  lemma MissingProfileUrl(b: Backend)
    ensures HandleRpc(RpcRequest(10, "tools/call", Params(Some("get_person_profile"),
                      ArgumentsObject(None))), b).reply
         == ErrorReply("profile_url required")
  {
  }

  /** `"arguments": null` makes `arguments.get` raise; the outer handler
      reports the exception's text, `'NoneType' object has no attribute 'get'`. */
  lemma NullArguments(b: Backend)
    ensures HandleRpc(RpcRequest(11, "tools/call", Params(Some("get_person_profile"),
                      NotAnObject("NoneType"))), b).reply
         == ErrorReply(NoAttributeGet("NoneType"))
  {
  }
}
