/** A user message that carries attachments, through its life: built for the current turn,
    stripped of its bytes when it is persisted, and collapsed to placeholders when a later
    turn shows it to the model. What the transcript shows of it must be the same all along. */
module Attachments {
  import opened Sequences
  import opened Text

  datatype BlockMeta = BlockMeta(id: string, name: string, mime: string, size: int, lane: string, url: string)

  datatype Payload =
    | UserText(text: string)
    | AssistantText(text: string)
    | Image(bytes: string, url: string, mime: string)
    | File(bytes: string, url: string, mime: string, name: string)
    | Other

  /** One content block: its payload, the attachment identity stamped on it, and the mark of
      a note meant for the model only. */
  datatype Block = Block(payload: Payload, meta: Option<BlockMeta>, pointer: bool)

  /** Nil blocks and nil messages are `None`. */
  datatype Message = Message(role: string, blocks: seq<Option<Block>>)

  datatype AttachmentMeta = AttachmentMeta(name: string, mime: string, size: int, url: string)

  const USER := "user"

  // ---------------------------------------------------------------- what the transcript shows

  function PayloadUrl(p: Payload): string {
    if p.Image? || p.File? then p.url else ""
  }

  function BlockMetas(block: Option<Block>): seq<AttachmentMeta> {
    if block.None? || block.value.meta.None? then []
    else
      var m := block.value.meta.value;
      var url := PayloadUrl(block.value.payload);
      [AttachmentMeta(m.name, m.mime, m.size, if url != "" then url else m.url)]
  }

  function BlockText(block: Option<Block>): string {
    if block.None? || block.value.pointer then ""
    else
      match block.value.payload
      case UserText(t) => t
      case AssistantText(t) => t
      case _ => ""
  }

  function Metas(blocks: seq<Option<Block>>): seq<AttachmentMeta> {
    Flatten(Map(BlockMetas, blocks))
  }

  function VisibleText(blocks: seq<Option<Block>>): string {
    Flatten(Map(BlockText, blocks))
  }

  lemma ShownAppend(a: seq<Option<Block>>, b: seq<Option<Block>>)
    ensures Metas(a + b) == Metas(a) + Metas(b) && VisibleText(a + b) == VisibleText(a) + VisibleText(b)
  {
    assert Map(BlockMetas, a + b) == Map(BlockMetas, a) + Map(BlockMetas, b);
    assert Map(BlockText, a + b) == Map(BlockText, a) + Map(BlockText, b);
    FlattenAppend(Map(BlockMetas, a), Map(BlockMetas, b));
    FlattenAppend(Map(BlockText, a), Map(BlockText, b));
  }

  lemma ShownOne(b: Option<Block>)
    ensures Metas([b]) == BlockMetas(b) && VisibleText([b]) == BlockText(b)
  {
    assert Map(BlockMetas, [b]) == [BlockMetas(b)];
    assert Map(BlockText, [b]) == [BlockText(b)];
    FlattenOne(BlockMetas(b));
    FlattenOne(BlockText(b));
  }

  method AttachmentMetasOf(blocks: seq<Option<Block>>) returns (out: seq<AttachmentMeta>)
    ensures out == Metas(blocks)
  {
    out := [];
    for i := 0 to |blocks|
      invariant out == Metas(blocks[..i])
    {
      ghost var before := blocks[..i];
      assert blocks[..i + 1] == before + [blocks[i]];
      ShownAppend(before, [blocks[i]]);
      ShownOne(blocks[i]);
      if blocks[i].None? || blocks[i].value.meta.None? {
        continue;
      }
      var block, meta := blocks[i].value, blocks[i].value.meta.value;
      var url := meta.url;
      match block.payload {
        case Image(_, u, _) => if u != "" { url := u; }
        case File(_, u, _, _) => if u != "" { url := u; }
        case _ =>
      }
      out := out + [AttachmentMeta(meta.name, meta.mime, meta.size, url)];
    }
    assert blocks[..|blocks|] == blocks;
  }

  method ExtractText(blocks: seq<Option<Block>>) returns (out: string)
    ensures out == VisibleText(blocks)
  {
    out := "";
    for i := 0 to |blocks|
      invariant out == VisibleText(blocks[..i])
    {
      ghost var before := blocks[..i];
      assert blocks[..i + 1] == before + [blocks[i]];
      ShownAppend(before, [blocks[i]]);
      ShownOne(blocks[i]);
      if blocks[i].None? || blocks[i].value.pointer {
        continue;
      }
      match blocks[i].value.payload {
        case AssistantText(t) => out := out + t;
        case UserText(t) => out := out + t;
        case _ =>
      }
    }
    assert blocks[..|blocks|] == blocks;
  }

  // ---------------------------------------------------------------- building the turn's message

  datatype Lane = InlineText | InlineImage | InlinePdf | Drop | Document

  datatype Ref = Ref(id: string, name: string, mime: string, size: int, lane: string)

  datatype Error =
    | UnknownLane(id: string, lane: string)
    | NoResolver
    | OpenFailed(id: string)
    | Empty(id: string)
    | UrlFailed(id: string)

  /** The blob resolver, the model's capabilities and the path and size rendering the notes
      use. */
  datatype Env = Env(
    open: string -> Option<string>, url: string -> Option<string>,
    images: bool, pdfs: bool,
    base: string -> string, path: Ref -> string, size: int -> string, mount: string)

  function LaneName(lane: Lane): string {
    match lane
    case InlineText => "inline-text"
    case InlineImage => "inline-image"
    case InlinePdf => "inline-pdf"
    case Drop => "drop"
    case Document => "document"
  }

  const LANES := [InlineText, InlineImage, InlinePdf, Drop, Document]

  predicate KnownLane(lane: string) {
    lane in Map(LaneName, LANES)
  }

  function Stamp(ref: Ref, url: string): Option<BlockMeta> {
    Some(BlockMeta(ref.id, ref.name, ref.mime, ref.size, ref.lane, url))
  }

  /** A note the model sees and the transcript does not, with the identity that keeps the
      attachment's chip alive. */
  function Note(env: Env, ref: Ref, text: string): Result<Block, Error> {
    if env.url(ref.id).None? then Err(UrlFailed(ref.id))
    else Ok(Block(UserText(text), Stamp(ref, env.url(ref.id).value), true))
  }

  function DegradedText(env: Env, ref: Ref, noun: string): string {
    "The user attached the file " + ref.name + " (" + ref.mime + ", " + env.size(ref.size)
    + "), but the current model cannot view " + noun + "; it is attached as reference only."
  }

  /** The text after the last dot of the last path element, or nothing. */
  function Extension(name: string, end: nat): string
    requires end <= |name|
  {
    if end == 0 || name[end - 1] == '/' then ""
    else if name[end - 1] == '.' then name[end..]
    else Extension(name, end - 1)
  }

  predicate IsDocument(ref: Ref) {
    Lowered(Extension(ref.name, |ref.name|)) in ["pdf", "docx", "xlsx", "pptx"] || ref.mime == "application/pdf"
  }

  function DropText(env: Env, ref: Ref): string {
    var name := env.base(ref.name);
    if IsDocument(ref) then
      "The user attached the document " + name + "; it is mounted read-only at " + env.path(ref)
      + ". Use the document.read tool to read its contents."
    else
      "The user attached the file " + name + "; it is mounted read-only at " + env.path(ref)
      + ". Use the filesystem tools to read it when you need its contents."
  }

  function Fenced(name: string, blob: string): string {
    "```" + name + "\n" + blob + "\n```"
  }

  function Opened(env: Env, ref: Ref): Result<string, Error> {
    if env.open(ref.id).None? then Err(OpenFailed(ref.id))
    else if env.open(ref.id).value == "" then Err(Empty(ref.id))
    else Ok(env.open(ref.id).value)
  }

  function TextBlock(env: Env, ref: Ref): Result<Block, Error> {
    match Opened(env, ref)
    case Err(e) => Err(e)
    case Ok(blob) => Ok(Block(UserText(Fenced(ref.name, blob)), None, false))
  }

  function ImageBlock(env: Env, ref: Ref): Result<Block, Error> {
    if !env.images then Note(env, ref, DegradedText(env, ref, "images"))
    else
      match Opened(env, ref)
      case Err(e) => Err(e)
      case Ok(blob) =>
        if env.url(ref.id).None? then Err(UrlFailed(ref.id))
        else Ok(Block(Image(blob, "", ref.mime), Stamp(ref, env.url(ref.id).value), false))
  }

  function PdfBlock(env: Env, ref: Ref): Result<Block, Error> {
    if !env.pdfs then Note(env, ref, DegradedText(env, ref, "PDF files"))
    else
      match Opened(env, ref)
      case Err(e) => Err(e)
      case Ok(blob) =>
        if env.url(ref.id).None? then Err(UrlFailed(ref.id))
        else Ok(Block(File(blob, "", ref.mime, ref.name), Stamp(ref, env.url(ref.id).value), false))
  }

  function DocumentBlock(env: Env, ref: Ref): Block {
    Block(UserText("User referenced document \"" + ref.name + "\" — it is available read-only at " + env.mount + "/"
                   + ref.name + "; use document.search or document.read to consult it."), None, true)
  }

  function LaneBlock(env: Env, lane: Lane, ref: Ref): Result<Block, Error> {
    match lane
    case InlineText => TextBlock(env, ref)
    case InlineImage => ImageBlock(env, ref)
    case InlinePdf => PdfBlock(env, ref)
    case Drop => Note(env, ref, DropText(env, ref))
    case Document => Ok(DocumentBlock(env, ref))
  }

  function Then(blocks: seq<Option<Block>>, rest: Result<seq<Option<Block>>, Error>)
      : Result<seq<Option<Block>>, Error>
  {
    if rest.Err? then rest else Ok(blocks + rest.value)
  }

  /** The blocks of one lane in reference order, or the first reference's failure. */
  function BuildLane(env: Env, lane: Lane, refs: seq<Ref>): Result<seq<Option<Block>>, Error> {
    if refs == [] then Ok([])
    else if refs[0].lane != LaneName(lane) then BuildLane(env, lane, refs[1..])
    else
      match LaneBlock(env, lane, refs[0])
      case Err(e) => Err(e)
      case Ok(b) => Then([Some(b)], BuildLane(env, lane, refs[1..]))
  }

  function BuildLanes(env: Env, lanes: seq<Lane>, refs: seq<Ref>): Result<seq<Option<Block>>, Error> {
    if lanes == [] then Ok([])
    else
      match BuildLane(env, lanes[0], refs)
      case Err(e) => Err(e)
      case Ok(blocks) => Then(blocks, BuildLanes(env, lanes[1..], refs))
  }

  function OwnText(input: string): seq<Option<Block>> {
    if input == "" then [] else [Some(Block(UserText(input), None, false))]
  }

  function FirstUnknown(refs: seq<Ref>): Option<Ref> {
    if refs == [] then None
    else if !KnownLane(refs[0].lane) then Some(refs[0])
    else FirstUnknown(refs[1..])
  }

  function Build(env: Option<Env>, input: string, refs: seq<Ref>): Result<Message, Error> {
    if FirstUnknown(refs).Some? then Err(UnknownLane(FirstUnknown(refs).value.id, FirstUnknown(refs).value.lane))
    else if env.None? then Err(NoResolver)
    else
      match BuildLanes(env.value, LANES, refs)
      case Err(e) => Err(e)
      case Ok(blocks) => Ok(Message(USER, OwnText(input) + blocks))
  }

  method AppendLane(env: Env, lane: Lane, refs: seq<Ref>, blocks: seq<Option<Block>>)
      returns (r: Result<seq<Option<Block>>, Error>)
    ensures r == Then(blocks, BuildLane(env, lane, refs))
  {
    var out := blocks;
    for i := 0 to |refs|
      invariant Then(out, BuildLane(env, lane, refs[i..])) == Then(blocks, BuildLane(env, lane, refs))
    {
      var ref := refs[i];
      assert refs[i..][0] == ref && refs[i..][1..] == refs[i + 1..];
      if ref.lane != LaneName(lane) {
        continue;
      }
      var block := LaneBlock(env, lane, ref);
      if block.Err? {
        return Err(block.error);
      }
      ghost var rest := BuildLane(env, lane, refs[i + 1..]);
      if rest.Ok? { Regroup(out, [Some(block.value)], rest.value); }
      out := out + [Some(block.value)];
    }
    assert refs[|refs|..] == [] && out + [] == out;
    r := Ok(out);
  }

  method BuildAttachmentUserMessage(env: Option<Env>, input: string, refs: seq<Ref>) returns (r: Result<Message, Error>)
    ensures r == Build(env, input, refs)
  {
    for i := 0 to |refs|
      invariant FirstUnknown(refs[i..]) == FirstUnknown(refs)
    {
      assert refs[i..][0] == refs[i] && refs[i..][1..] == refs[i + 1..];
      if !KnownLane(refs[i].lane) {
        return Err(UnknownLane(refs[i].id, refs[i].lane));
      }
    }
    var blocks := OwnText(input);
    if env.None? {
      return Err(NoResolver);
    }
    for l := 0 to |LANES|
      invariant Then(blocks, BuildLanes(env.value, LANES[l..], refs))
             == Then(OwnText(input), BuildLanes(env.value, LANES, refs))
    {
      assert LANES[l..][0] == LANES[l] && LANES[l..][1..] == LANES[l + 1..];
      ghost var lane, rest := BuildLane(env.value, LANES[l], refs), BuildLanes(env.value, LANES[l + 1..], refs);
      if lane.Ok? && rest.Ok? { Regroup(blocks, lane.value, rest.value); }
      var next := AppendLane(env.value, LANES[l], refs, blocks);
      if next.Err? {
        return Err(next.error);
      }
      blocks := next.value;
    }
    assert LANES[|LANES|..] == [] && blocks + [] == blocks;
    r := Ok(Message(USER, blocks));
  }

  // ---------------------------------------------------------------- live: the same for every model

  /** What a reference shows in the transcript, whatever the model can view. */
  function RefMetas(env: Env, lane: Lane, ref: Ref): seq<AttachmentMeta> {
    if ref.lane != LaneName(lane) || lane.InlineText? || lane.Document? || env.url(ref.id).None? then []
    else [AttachmentMeta(ref.name, ref.mime, ref.size, env.url(ref.id).value)]
  }

  function RefText(env: Env, lane: Lane, ref: Ref): string {
    if ref.lane != LaneName(lane) || !lane.InlineText? || env.open(ref.id).None? then ""
    else Fenced(ref.name, env.open(ref.id).value)
  }

  function LaneMetas(env: Env, lane: Lane, refs: seq<Ref>): seq<AttachmentMeta> {
    Flatten(Map((ref: Ref) => RefMetas(env, lane, ref), refs))
  }

  function LaneText(env: Env, lane: Lane, refs: seq<Ref>): string {
    Flatten(Map((ref: Ref) => RefText(env, lane, ref), refs))
  }

  /** A picture or a document, with its bytes or without. */
  predicate Attached(block: Option<Block>) {
    block.Some? && (block.value.payload.Image? || block.value.payload.File?)
  }

  predicate Loaded(block: Option<Block>) {
    Attached(block) ==> block.value.payload.bytes != ""
  }

  lemma BuiltBlockShows(env: Env, lane: Lane, ref: Ref)
    requires ref.lane == LaneName(lane) && LaneBlock(env, lane, ref).Ok?
    ensures var b := Some(LaneBlock(env, lane, ref).value);
      BlockMetas(b) == RefMetas(env, lane, ref) && BlockText(b) == RefText(env, lane, ref) && Loaded(b)
  {
    match lane
    case InlineText =>
    case InlineImage => if !env.images { NoteShows(env, ref, DegradedText(env, ref, "images")); }
    case InlinePdf => if !env.pdfs { NoteShows(env, ref, DegradedText(env, ref, "PDF files")); }
    case Drop => NoteShows(env, ref, DropText(env, ref));
    case Document =>
  }

  lemma NoteShows(env: Env, ref: Ref, text: string)
    requires Note(env, ref, text).Ok?
    ensures var b := Some(Note(env, ref, text).value);
      BlockMetas(b) == [AttachmentMeta(ref.name, ref.mime, ref.size, env.url(ref.id).value)] && BlockText(b) == ""
      && !Attached(b)
  {
  }

  lemma {:induction false} BuiltLaneShows(env: Env, lane: Lane, refs: seq<Ref>)
    requires BuildLane(env, lane, refs).Ok?
    ensures var blocks := BuildLane(env, lane, refs).value;
      Metas(blocks) == LaneMetas(env, lane, refs) && VisibleText(blocks) == LaneText(env, lane, refs)
      && (forall b :: b in blocks ==> Loaded(b))
  {
    if refs != [] {
      LaneHead(env, lane, refs);
      BuiltLaneShows(env, lane, refs[1..]);
      if refs[0].lane == LaneName(lane) {
        var b := Some(LaneBlock(env, lane, refs[0]).value);
        BuiltBlockShows(env, lane, refs[0]);
        ShownOne(b);
        ShownAppend([b], BuildLane(env, lane, refs[1..]).value);
      }
    }
  }

  lemma LaneHead(env: Env, lane: Lane, refs: seq<Ref>)
    requires refs != []
    ensures LaneMetas(env, lane, refs) == RefMetas(env, lane, refs[0]) + LaneMetas(env, lane, refs[1..])
    ensures LaneText(env, lane, refs) == RefText(env, lane, refs[0]) + LaneText(env, lane, refs[1..])
  {
    var metas, text := (ref: Ref) => RefMetas(env, lane, ref), (ref: Ref) => RefText(env, lane, ref);
    assert Map(metas, refs)[1..] == Map(metas, refs[1..]);
    assert Map(text, refs)[1..] == Map(text, refs[1..]);
  }

  function AllMetas(env: Env, lanes: seq<Lane>, refs: seq<Ref>): seq<AttachmentMeta> {
    if lanes == [] then [] else LaneMetas(env, lanes[0], refs) + AllMetas(env, lanes[1..], refs)
  }

  function AllText(env: Env, lanes: seq<Lane>, refs: seq<Ref>): string {
    if lanes == [] then "" else LaneText(env, lanes[0], refs) + AllText(env, lanes[1..], refs)
  }

  lemma {:induction false} BuiltLanesShow(env: Env, lanes: seq<Lane>, refs: seq<Ref>)
    requires BuildLanes(env, lanes, refs).Ok?
    ensures var blocks := BuildLanes(env, lanes, refs).value;
      Metas(blocks) == AllMetas(env, lanes, refs) && VisibleText(blocks) == AllText(env, lanes, refs)
      && (forall b :: b in blocks ==> Loaded(b))
  {
    if lanes != [] {
      BuiltLaneShows(env, lanes[0], refs);
      BuiltLanesShow(env, lanes[1..], refs);
      ShownAppend(BuildLane(env, lanes[0], refs).value, BuildLanes(env, lanes[1..], refs).value);
    }
  }

  /** What the transcript shows of a built turn is its own text, the fenced texts, and one
      entry per picture, document and dropped file; every picture and document in it carries
      its bytes. */
  lemma BuiltTurnShows(env: Env, input: string, refs: seq<Ref>)
    requires Build(Some(env), input, refs).Ok?
    ensures var m := Build(Some(env), input, refs).value;
      m.role == USER && Metas(m.blocks) == AllMetas(env, LANES, refs)
      && VisibleText(m.blocks) == input + AllText(env, LANES, refs)
      && (forall b :: b in m.blocks ==> Loaded(b))
  {
    BuiltLanesShow(env, LANES, refs);
    var blocks := BuildLanes(env, LANES, refs).value;
    ShownAppend(OwnText(input), blocks);
    if input != "" {
      ShownOne(OwnText(input)[0]);
    }
  }

  function WithModality(env: Env, images: bool, pdfs: bool): Env {
    env.(images := images, pdfs := pdfs)
  }

  lemma {:induction false} ShownIgnoresModality(env: Env, images: bool, pdfs: bool, lanes: seq<Lane>, refs: seq<Ref>)
    ensures AllMetas(WithModality(env, images, pdfs), lanes, refs) == AllMetas(env, lanes, refs)
    ensures AllText(WithModality(env, images, pdfs), lanes, refs) == AllText(env, lanes, refs)
  {
    if lanes != [] {
      var other, lane := WithModality(env, images, pdfs), lanes[0];
      assert Map((ref: Ref) => RefMetas(other, lane, ref), refs) == Map((ref: Ref) => RefMetas(env, lane, ref), refs);
      assert Map((ref: Ref) => RefText(other, lane, ref), refs) == Map((ref: Ref) => RefText(env, lane, ref), refs);
      ShownIgnoresModality(env, images, pdfs, lanes[1..], refs);
    }
  }

  /** A turn shows the same whatever the model can view, and a model that can view nothing
      never turns a good build into a failed one. */
  lemma SameForEveryModality(env: Env, images: bool, pdfs: bool, input: string, refs: seq<Ref>)
    requires Build(Some(env), input, refs).Ok?
    ensures Build(Some(WithModality(env, images, pdfs)), input, refs).Ok? ==>
      var m, n := Build(Some(env), input, refs).value, Build(Some(WithModality(env, images, pdfs)), input, refs).value;
      Metas(m.blocks) == Metas(n.blocks) && VisibleText(m.blocks) == VisibleText(n.blocks)
    ensures (images ==> env.images) && (pdfs ==> env.pdfs) ==>
      Build(Some(WithModality(env, images, pdfs)), input, refs).Ok?
  {
    var other := WithModality(env, images, pdfs);
    if Build(Some(other), input, refs).Ok? {
      BuiltTurnShows(env, input, refs);
      BuiltTurnShows(other, input, refs);
      ShownIgnoresModality(env, images, pdfs, LANES, refs);
    }
    if (images ==> env.images) && (pdfs ==> env.pdfs) {
      DegradedLanesBuild(env, other, LANES, refs);
    }
  }

  ghost predicate Degrades(env: Env, other: Env) {
    other == WithModality(env, other.images, other.pdfs) && (other.images ==> env.images) && (other.pdfs ==> env.pdfs)
  }

  lemma {:induction false} DegradedLaneBuilds(env: Env, other: Env, lane: Lane, refs: seq<Ref>)
    requires Degrades(env, other) && BuildLane(env, lane, refs).Ok?
    ensures BuildLane(other, lane, refs).Ok?
  {
    if refs != [] {
      DegradedLaneBuilds(env, other, lane, refs[1..]);
      if refs[0].lane == LaneName(lane) {
        assert LaneBlock(env, lane, refs[0]).Ok? ==> LaneBlock(other, lane, refs[0]).Ok?;
      }
    }
  }

  lemma {:induction false} DegradedLanesBuild(env: Env, other: Env, lanes: seq<Lane>, refs: seq<Ref>)
    requires Degrades(env, other) && BuildLanes(env, lanes, refs).Ok?
    ensures BuildLanes(other, lanes, refs).Ok?
  {
    if lanes != [] {
      DegradedLaneBuilds(env, other, lanes[0], refs);
      DegradedLanesBuild(env, other, lanes[1..], refs);
    }
  }

  // ---------------------------------------------------------------- live: what the model gets

  function Of(lane: string): Ref -> bool {
    (ref: Ref) => ref.lane == lane
  }

  /** The references as a message takes them: lane by lane, each lane's in their order. */
  function InLaneOrder(refs: seq<Ref>): seq<Ref> {
    Filter(Of("inline-text"), refs)
    + (Filter(Of("inline-image"), refs)
       + (Filter(Of("inline-pdf"), refs) + (Filter(Of("drop"), refs) + Filter(Of("document"), refs))))
  }

  /** The reference goes to the model with its bytes: texts always, pictures and PDF files only
      when it can view them. */
  predicate Viewed(env: Env, ref: Ref) {
    ref.lane == "inline-text" || (ref.lane == "inline-image" && env.images) || (ref.lane == "inline-pdf" && env.pdfs)
  }

  ghost predicate Mentions(text: string, name: string) {
    exists i: nat :: MentionsAt(text, name, i)
  }

  predicate MentionsAt(text: string, name: string, i: nat) {
    i + |name| <= |text| && text[i..i + |name|] == name
  }

  /** A note for the model only. One that stands for a file names it. */
  ghost predicate NotedOnly(b: Block, name: string) {
    b.pointer && b.payload.UserText? && Mentions(b.payload.text, name)
  }

  /** Every block but a text's or a mentioned document's is stamped with its reference. */
  ghost predicate StampedAs(b: Block, env: Env, ref: Ref) {
    if ref.lane == "inline-text" || ref.lane == "document" then b.meta.None?
    else
      env.url(ref.id).Some?
      && b.meta == Some(BlockMeta(ref.id, ref.name, ref.mime, ref.size, ref.lane, env.url(ref.id).value))
  }

  /** The block a reference becomes. */
  ghost predicate BuiltFrom(block: Option<Block>, env: Env, ref: Ref) {
    block.Some? && StampedAs(block.value, env, ref)
    && if Viewed(env, ref) then
         var blob := env.open(ref.id);
         blob.Some? && blob.value != "" && !block.value.pointer
         && block.value.payload
            == (if ref.lane == "inline-text" then UserText("```" + ref.name + "\n" + blob.value + "\n```")
                else if ref.lane == "inline-image" then Image(blob.value, "", ref.mime)
                else File(blob.value, "", ref.mime, ref.name))
       else NotedOnly(block.value, if ref.lane == "drop" then env.base(ref.name) else ref.name)
  }

  /** Why a reference makes the build fail: its bytes are needed and cannot be opened or are
      empty, or its URL is needed and cannot be had. */
  ghost predicate FailsWith(env: Env, ref: Ref, e: Error) {
    var blob := env.open(ref.id);
    if Viewed(env, ref) && (blob.None? || blob.value == "") then
      e == if blob.None? then OpenFailed(ref.id) else Empty(ref.id)
    else ref.lane != "inline-text" && ref.lane != "document" && env.url(ref.id).None? && e == UrlFailed(ref.id)
  }

  ghost predicate Buildable(env: Env, ref: Ref) {
    forall e :: !FailsWith(env, ref, e)
  }

  /** A block for each reference, or the first failure. */
  ghost predicate Matches(r: Result<seq<Option<Block>>, Error>, env: Env, refs: seq<Ref>) {
    match r
    case Ok(blocks) =>
      |blocks| == |refs|
      && forall i :: 0 <= i < |refs| ==> Buildable(env, refs[i]) && BuiltFrom(blocks[i], env, refs[i])
    case Err(e) =>
      exists i :: 0 <= i < |refs| && FailsWith(env, refs[i], e) && forall j :: 0 <= j < i ==> Buildable(env, refs[j])
  }

  lemma MentionsMore(text: string, more: string, name: string)
    requires Mentions(text, name)
    ensures Mentions(text + more, name)
  {
    var i: nat :| MentionsAt(text, name, i);
    assert (text + more)[i..i + |name|] == name && MentionsAt(text + more, name, i);
  }

  lemma MentionsBehind(before: string, name: string)
    ensures Mentions(before + name, name)
  {
    assert (before + name)[|before|..|before| + |name|] == name && MentionsAt(before + name, name, |before|);
  }

  lemma DegradedNames(env: Env, ref: Ref, noun: string)
    ensures Mentions(DegradedText(env, ref, noun), ref.name)
  {
    var named := "The user attached the file " + ref.name;
    MentionsBehind("The user attached the file ", ref.name);
    MentionsMore(named, " (", ref.name);
    MentionsMore(named + " (", ref.mime, ref.name);
    var typed := named + " (" + ref.mime;
    MentionsMore(typed, ", ", ref.name);
    MentionsMore(typed + ", ", env.size(ref.size), ref.name);
    var sized := typed + ", " + env.size(ref.size);
    MentionsMore(sized, "), but the current model cannot view ", ref.name);
    MentionsMore(sized + "), but the current model cannot view ", noun, ref.name);
    MentionsMore(sized + "), but the current model cannot view " + noun, "; it is attached as reference only.",
                 ref.name);
  }

  lemma DropNames(env: Env, ref: Ref)
    ensures Mentions(DropText(env, ref), env.base(ref.name))
  {
    var name, kind := env.base(ref.name), if IsDocument(ref) then "document " else "file ";
    var before := if IsDocument(ref) then "The user attached the document " else "The user attached the file ";
    MentionsBehind(before, name);
    MentionsMore(before + name, "; it is mounted read-only at ", name);
    MentionsMore(before + name + "; it is mounted read-only at ", env.path(ref), name);
    var placed := before + name + "; it is mounted read-only at " + env.path(ref);
    MentionsMore(placed, ". Use the document.read tool to read its contents.", name);
    MentionsMore(placed, ". Use the filesystem tools to read it when you need its contents.", name);
  }

  lemma DocumentNames(env: Env, ref: Ref)
    ensures DocumentBlock(env, ref).payload.UserText? && Mentions(DocumentBlock(env, ref).payload.text, ref.name)
  {
    var named := "User referenced document \"" + ref.name;
    MentionsBehind("User referenced document \"", ref.name);
    MentionsMore(named, "\" — it is available read-only at ", ref.name);
    MentionsMore(named + "\" — it is available read-only at ", env.mount, ref.name);
    var placed := named + "\" — it is available read-only at " + env.mount;
    MentionsMore(placed, "/", ref.name);
    MentionsMore(placed + "/", ref.name, ref.name);
    MentionsMore(placed + "/" + ref.name, "; use document.search or document.read to consult it.", ref.name);
  }

  lemma LaneBlockMatches(env: Env, lane: Lane, ref: Ref)
    requires ref.lane == LaneName(lane)
    ensures match LaneBlock(env, lane, ref)
            case Ok(b) => Buildable(env, ref) && BuiltFrom(Some(b), env, ref)
            case Err(e) => FailsWith(env, ref, e)
  {
    match lane
    case InlineText =>
    case InlineImage => DegradedNames(env, ref, "images");
    case InlinePdf => DegradedNames(env, ref, "PDF files");
    case Drop => DropNames(env, ref);
    case Document => DocumentNames(env, ref);
  }

  lemma MatchesBoth(env: Env, a: Result<seq<Option<Block>>, Error>, x: seq<Ref>,
                    b: Result<seq<Option<Block>>, Error>, y: seq<Ref>)
    requires Matches(a, env, x) && (a.Ok? ==> Matches(b, env, y))
    ensures Matches(if a.Err? then a else Then(a.value, b), env, x + y)
  {
    var all := x + y;
    assert forall i :: 0 <= i < |x| ==> all[i] == x[i];
    assert forall i :: 0 <= i < |y| ==> all[|x| + i] == y[i];
    if a.Err? {
      var i :| 0 <= i < |x| && FailsWith(env, x[i], a.error) && forall j :: 0 <= j < i ==> Buildable(env, x[j]);
      assert FailsWith(env, all[i], a.error);
    } else if b.Err? {
      var i :| 0 <= i < |y| && FailsWith(env, y[i], b.error) && forall j :: 0 <= j < i ==> Buildable(env, y[j]);
      assert FailsWith(env, all[|x| + i], b.error);
      forall j | 0 <= j < |x| + i ensures Buildable(env, all[j]) {
        if j >= |x| { assert all[j] == y[j - |x|]; }
      }
    } else {
      forall i | 0 <= i < |all| ensures Buildable(env, all[i]) && BuiltFrom((a.value + b.value)[i], env, all[i]) {
        if i >= |x| { assert all[i] == y[i - |x|] && (a.value + b.value)[i] == b.value[i - |x|]; }
      }
    }
  }

  /** What one reference of a lane adds is its block or its failure. */
  function BuildOne(env: Env, lane: Lane, ref: Ref): Result<seq<Option<Block>>, Error> {
    match LaneBlock(env, lane, ref)
    case Err(e) => Err(e)
    case Ok(b) => Ok([Some(b)])
  }

  lemma OneMatches(env: Env, lane: Lane, ref: Ref)
    requires ref.lane == LaneName(lane)
    ensures Matches(BuildOne(env, lane, ref), env, [ref])
  {
    LaneBlockMatches(env, lane, ref);
    assert [ref][0] == ref;
  }

  lemma {:induction false} LaneMatches(env: Env, lane: Lane, refs: seq<Ref>)
    ensures Matches(BuildLane(env, lane, refs), env, Filter(Of(LaneName(lane)), refs))
  {
    if refs != [] {
      var ref, tail, rest := refs[0], BuildLane(env, lane, refs[1..]), Filter(Of(LaneName(lane)), refs[1..]);
      LaneMatches(env, lane, refs[1..]);
      if ref.lane == LaneName(lane) {
        var one := BuildOne(env, lane, ref);
        assert Matches(if one.Err? then one else Then(one.value, tail), env, [ref] + rest) by {
          OneMatches(env, lane, ref);
          MatchesBoth(env, one, [ref], tail, rest);
        }
        assert BuildLane(env, lane, refs) == if one.Err? then one else Then(one.value, tail);
        assert Filter(Of(LaneName(lane)), refs) == [ref] + rest;
      } else {
        assert Filter(Of(LaneName(lane)), refs) == [] + rest == rest;
      }
    }
  }

  function ByLane(lanes: seq<Lane>, refs: seq<Ref>): seq<Ref> {
    if lanes == [] then [] else Filter(Of(LaneName(lanes[0])), refs) + ByLane(lanes[1..], refs)
  }

  lemma {:induction false} LanesMatch(env: Env, lanes: seq<Lane>, refs: seq<Ref>)
    ensures Matches(BuildLanes(env, lanes, refs), env, ByLane(lanes, refs))
  {
    if lanes != [] {
      LaneMatches(env, lanes[0], refs);
      LanesMatch(env, lanes[1..], refs);
      MatchesBoth(env, BuildLane(env, lanes[0], refs), Filter(Of(LaneName(lanes[0])), refs),
                  BuildLanes(env, lanes[1..], refs), ByLane(lanes[1..], refs));
    }
  }

  lemma LaneOrderIs(refs: seq<Ref>)
    ensures ByLane(LANES, refs) == InLaneOrder(refs)
  {
    assert LANES[1..] == [InlineImage, InlinePdf, Drop, Document];
    assert LANES[1..][1..] == [InlinePdf, Drop, Document];
    assert [InlinePdf, Drop, Document][1..] == [Drop, Document];
    assert [Drop, Document][1..] == [Document] && [Document][1..] == [];
    assert ByLane([Document], refs) == Filter(Of("document"), refs) + [] == Filter(Of("document"), refs);
    assert ByLane([Drop, Document], refs) == Filter(Of("drop"), refs) + Filter(Of("document"), refs);
    assert ByLane(LANES[1..][1..], refs)
        == Filter(Of("inline-pdf"), refs) + (Filter(Of("drop"), refs) + Filter(Of("document"), refs));
  }

  predicate LaneIsKnown(ref: Ref) {
    ref.lane in ["inline-text", "inline-image", "inline-pdf", "drop", "document"]
  }

  lemma {:induction false} FirstUnknownIs(refs: seq<Ref>)
    ensures match FirstUnknown(refs)
            case None => forall i :: 0 <= i < |refs| ==> LaneIsKnown(refs[i])
            case Some(ref) =>
              exists i :: 0 <= i < |refs| && refs[i] == ref && !LaneIsKnown(ref)
                          && forall j :: 0 <= j < i ==> LaneIsKnown(refs[j])
  {
    if refs != [] {
      assert Map(LaneName, LANES) == ["inline-text", "inline-image", "inline-pdf", "drop", "document"];
      FirstUnknownIs(refs[1..]);
      if !LaneIsKnown(refs[0]) {
        assert refs[0] == refs[0];
      } else if FirstUnknown(refs).Some? {
        var ref, rest := FirstUnknown(refs).value, refs[1..];
        var i :| 0 <= i < |rest| && rest[i] == ref && forall j :: 0 <= j < i ==> LaneIsKnown(rest[j]);
        assert refs[i + 1] == ref && forall j :: 0 <= j < i + 1 ==> LaneIsKnown(refs[j]);
      } else {
        assert forall i :: 0 < i < |refs| ==> refs[i] == refs[1..][i - 1];
      }
    }
  }

  /** The first reference whose lane nobody knows. */
  ghost predicate FirstStranger(refs: seq<Ref>, i: nat)
    requires i < |refs|
  {
    !LaneIsKnown(refs[i]) && forall j :: 0 <= j < i ==> LaneIsKnown(refs[j])
  }

  /** What a build comes to, told reference by reference: the turn's text and a block for each
      reference, the picture or file itself for a model that can view it and a note that names
      it otherwise; or the first unknown lane, the missing resolver, or the first reference, in
      lane order, that cannot be had. */
  ghost predicate Built(r: Result<Message, Error>, env: Option<Env>, input: string, refs: seq<Ref>) {
    if exists i :: 0 <= i < |refs| && !LaneIsKnown(refs[i]) then
      exists i :: 0 <= i < |refs| && FirstStranger(refs, i) && r == Err(UnknownLane(refs[i].id, refs[i].lane))
    else if env.None? then r == Err(NoResolver)
    else if r.Err? then Matches(Err(r.error), env.value, InLaneOrder(refs))
    else
      var own := if input == "" then [] else [Some(Block(UserText(input), None, false))];
      r.value.role == "user" && own <= r.value.blocks
      && Matches(Ok(r.value.blocks[|own|..]), env.value, InLaneOrder(refs))
  }

  lemma BuildIs(env: Option<Env>, input: string, refs: seq<Ref>)
    ensures Built(Build(env, input, refs), env, input, refs)
  {
    FirstUnknownIs(refs);
    if FirstUnknown(refs).None? && env.Some? {
      LanesMatch(env.value, LANES, refs);
      LaneOrderIs(refs);
      var lanes := BuildLanes(env.value, LANES, refs);
      if lanes.Ok? { assert (OwnText(input) + lanes.value)[|OwnText(input)|..] == lanes.value; }
    }
  }

  // ---------------------------------------------------------------- persisted: no bytes

  function DemoteBlock(block: Option<Block>): Option<Block> {
    if block.None? then block
    else
      match block.value.payload
      case Image(bytes, url, mime) => Some(block.value.(payload := Image("", url, mime)))
      case File(bytes, url, mime, name) => Some(block.value.(payload := File("", url, mime, name)))
      case _ => block
  }

  predicate DemotableRole(role: string) {
    Lowered(TrimSpace(role)) == USER
  }

  function Demote(m: Message): Message {
    if DemotableRole(m.role) then m.(blocks := Map(DemoteBlock, m.blocks)) else m
  }

  lemma UserIsDemotable()
    ensures DemotableRole(USER)
  {
    SnugTrims(USER);
    assert Lowered(USER) == USER;
  }

  method DemoteAttachmentBytes(m: Message) returns (r: Message)
    ensures r == Demote(m)
  {
    if !DemotableRole(m.role) {
      return m;
    }
    var demoted := false;
    var blocks := new Option<Block>[|m.blocks|];
    for i := 0 to |m.blocks|
      invariant forall j :: 0 <= j < i ==> blocks[j] == DemoteBlock(m.blocks[j])
      invariant !demoted ==> forall j :: 0 <= j < i ==> blocks[j] == m.blocks[j]
    {
      match m.blocks[i] {
        case Some(Block(Image(bytes, url, mime), meta, pointer)) =>
          blocks[i] := Some(Block(Image("", url, mime), meta, pointer));
          demoted := demoted || bytes != "";
        case Some(Block(File(bytes, url, mime, name), meta, pointer)) =>
          blocks[i] := Some(Block(File("", url, mime, name), meta, pointer));
          demoted := demoted || bytes != "";
        case _ =>
          blocks[i] := m.blocks[i];
      }
    }
    assert blocks[..] == Map(DemoteBlock, m.blocks);
    if !demoted {
      assert blocks[..] == m.blocks;
      return m;
    }
    r := m.(blocks := blocks[..]);
  }

  /** Losing its bytes changes nothing the transcript shows, and doing it twice is doing it
      once. */
  lemma DemotionIsInvisible(m: Message)
    ensures Metas(Demote(m).blocks) == Metas(m.blocks) && VisibleText(Demote(m).blocks) == VisibleText(m.blocks)
    ensures Demote(Demote(m)) == Demote(m)
    ensures DemotableRole(m.role) ==>
      forall b :: b in Demote(m).blocks && Attached(b) ==> b.value.payload.bytes == ""
  {
    var d := Demote(m);
    assert Map(BlockMetas, d.blocks) == Map(BlockMetas, m.blocks);
    assert Map(BlockText, d.blocks) == Map(BlockText, m.blocks);
    assert Demote(d).blocks == d.blocks;
  }

  // ---------------------------------------------------------------- shown again: placeholders

  function MetaUrl(b: Block): string {
    if b.meta.Some? then b.meta.value.url else ""
  }

  predicate HasUrl(b: Block) {
    PayloadUrl(b.payload) != "" || MetaUrl(b) != ""
  }

  predicate Stale(block: Option<Block>) {
    Attached(block) && block.value.payload.bytes == "" && HasUrl(block.value)
  }

  function LastSegment(url: string, end: nat): string
    requires end <= |url|
  {
    if end == 0 then url else if url[end - 1] == '/' then url[end..] else LastSegment(url, end - 1)
  }

  function FirstNonEmpty(a: string, b: string): string {
    if a != "" then a else b
  }

  const GONE := ") — attached in an earlier message; its contents are no longer in context. Path: "

  function PlaceholderText(b: Block): string
    requires b.payload.Image? || b.payload.File?
  {
    var mime := FirstNonEmpty(if b.meta.Some? then b.meta.value.mime else "", b.payload.mime);
    var url := FirstNonEmpty(b.payload.url, MetaUrl(b));
    var given := FirstNonEmpty(if b.meta.Some? then b.meta.value.name else "",
                               if b.payload.File? then b.payload.name else "");
    var name := FirstNonEmpty(given, LastSegment(url, |url|));
    "[attachment: " + name + " (" + mime + GONE + url + "]"
  }

  /** A placeholder tells where the attachment is and what it was: its own name, or the file
      name it was sent under, or the end of its URL. */
  lemma PlaceholderTells(b: Block)
    requires b.payload.Image? || b.payload.File?
    ensures Mentions(PlaceholderText(b), if b.payload.url != "" then b.payload.url else MetaUrl(b))
    ensures b.meta.Some? && b.meta.value.name != "" ==> Mentions(PlaceholderText(b), b.meta.value.name)
    ensures (b.meta.None? || b.meta.value.name == "") && b.payload.File? && b.payload.name != "" ==>
      Mentions(PlaceholderText(b), b.payload.name)
  {
    var mime := FirstNonEmpty(if b.meta.Some? then b.meta.value.mime else "", b.payload.mime);
    var url := FirstNonEmpty(b.payload.url, MetaUrl(b));
    var given := FirstNonEmpty(if b.meta.Some? then b.meta.value.name else "",
                               if b.payload.File? then b.payload.name else "");
    var name := FirstNonEmpty(given, LastSegment(url, |url|));
    var named := "[attachment: " + name;
    MentionsBehind("[attachment: ", name);
    MentionsMore(named, " (", name);
    MentionsMore(named + " (", mime, name);
    MentionsMore(named + " (" + mime, GONE, name);
    var before := named + " (" + mime + GONE;
    MentionsMore(before, url, name);
    MentionsMore(before + url, "]", name);
    MentionsBehind(before, url);
    MentionsMore(before + url, "]", url);
  }

  function Placeholder(b: Block): (note: Block)
    requires b.payload.Image? || b.payload.File?
    ensures note.payload.UserText? && note.meta.None? && note.pointer
  {
    Block(UserText(PlaceholderText(b)), None, true)
  }

  function CollapseBlock(block: Option<Block>): Option<Block> {
    if Stale(block) then Some(Placeholder(block.value)) else block
  }

  function CollapseMessage(m: Option<Message>): Option<Message> {
    if m.None? || m.value.role != USER then m
    else Some(m.value.(blocks := Map(CollapseBlock, m.value.blocks)))
  }

  method PlaceholderBlocks(blocks: seq<Option<Block>>) returns (r: seq<Option<Block>>)
    ensures r == Map(CollapseBlock, blocks)
  {
    var out := new Option<Block>[|blocks|];
    for i := 0 to |blocks|
      invariant forall j :: 0 <= j < i ==> out[j] == CollapseBlock(blocks[j])
    {
      var block := blocks[i];
      if Stale(block) {
        block := Some(Placeholder(block.value));
      }
      out[i] := block;
    }
    r := out[..];
  }

  method HasStaleBlocks(blocks: seq<Option<Block>>) returns (stale: bool)
    ensures !stale ==> Map(CollapseBlock, blocks) == blocks
  {
    for i := 0 to |blocks|
      invariant forall j :: 0 <= j < i ==> !Stale(blocks[j])
    {
      if Stale(blocks[i]) {
        return true;
      }
    }
    return false;
  }

  method CollapseStaleAttachmentBlocks(msgs: seq<Option<Message>>) returns (r: seq<Option<Message>>)
    ensures r == Map(CollapseMessage, msgs)
  {
    var changed := false;
    var out := new Option<Message>[|msgs|];
    for i := 0 to |msgs|
      invariant forall j :: 0 <= j < i ==> out[j] == CollapseMessage(msgs[j])
      invariant !changed ==> forall j :: 0 <= j < i ==> out[j] == msgs[j]
    {
      if msgs[i].None? || msgs[i].value.role != USER {
        out[i] := msgs[i];
        continue;
      }
      var stale := HasStaleBlocks(msgs[i].value.blocks);
      if stale {
        var blocks := PlaceholderBlocks(msgs[i].value.blocks);
        out[i] := Some(msgs[i].value.(blocks := blocks));
        changed := true;
      } else {
        out[i] := msgs[i];
      }
    }
    if !changed {
      return msgs;
    }
    r := out[..];
  }

  lemma CollapseIsIdempotent(msgs: seq<Option<Message>>)
    ensures Map(CollapseMessage, Map(CollapseMessage, msgs)) == Map(CollapseMessage, msgs)
  {
    forall m: Option<Message> ensures CollapseMessage(CollapseMessage(m)) == CollapseMessage(m) {
      if m.Some? && m.value.role == USER {
        var once := Map(CollapseBlock, m.value.blocks);
        assert Map(CollapseBlock, once) == once;
      }
    }
  }

  lemma CollapseKeepsText(m: Message)
    ensures VisibleText(CollapseMessage(Some(m)).value.blocks) == VisibleText(m.blocks)
  {
    if m.role == USER {
      assert Map(BlockText, Map(CollapseBlock, m.blocks)) == Map(BlockText, m.blocks);
    }
  }

  /** The model sees the current turn as it was built. */
  lemma CurrentTurnIsLeftAlone(env: Env, input: string, refs: seq<Ref>)
    requires Build(Some(env), input, refs).Ok?
    ensures var m := Build(Some(env), input, refs).value; CollapseMessage(Some(m)) == Some(m)
  {
    BuiltTurnShows(env, input, refs);
    var m := Build(Some(env), input, refs).value;
    forall i | 0 <= i < |m.blocks| ensures CollapseBlock(m.blocks[i]) == m.blocks[i] {
      assert m.blocks[i] in m.blocks && Loaded(m.blocks[i]);
    }
    assert Map(CollapseBlock, m.blocks) == m.blocks;
  }

  /** Of an attachment only one without any URL is left, and that one without bytes. */
  predicate Leaves(block: Option<Block>, seen: Option<Block>) {
    (Attached(seen) <==> Attached(block) && !HasUrl(block.value))
    && (Attached(seen) ==> seen.value.payload.bytes == "")
  }

  lemma SeenLater(block: Option<Block>)
    ensures Leaves(block, CollapseBlock(DemoteBlock(block)))
  {
    var demoted := DemoteBlock(block);
    assert Attached(demoted) <==> Attached(block);
    if Attached(block) {
      assert HasUrl(demoted.value) <==> HasUrl(block.value);
    }
  }

  lemma LeavesAll(blocks: seq<Option<Block>>, seen: seq<Option<Block>>)
    requires |blocks| == |seen| && forall i :: 0 <= i < |blocks| ==> Leaves(blocks[i], seen[i])
    ensures forall b :: b in seen && Attached(b) ==> b.value.payload.bytes == ""
    ensures (forall b :: b in seen ==> !Attached(b)) <==> (forall b :: b in blocks && Attached(b) ==> HasUrl(b.value))
  {
    if b :| b in blocks && Attached(b) && !HasUrl(b.value) {
      var i :| 0 <= i < |blocks| && blocks[i] == b;
      assert Leaves(blocks[i], seen[i]) && seen[i] in seen;
    }
  }

  lemma DemotedStaysAttached(m: Message)
    ensures (forall b :: b in Demote(m).blocks ==> !Attached(b)) <==> (forall b :: b in m.blocks ==> !Attached(b))
  {
    var demoted := Demote(m).blocks;
    if b :| b in m.blocks && Attached(b) {
      var i :| 0 <= i < |m.blocks| && m.blocks[i] == b;
      assert Attached(demoted[i]);
    }
    if b :| b in demoted && Attached(b) {
      var i :| 0 <= i < |demoted| && demoted[i] == b;
      assert Attached(m.blocks[i]);
    }
  }

  /** Every later turn sees a user's message without bytes. It sees it without a picture or
      document block exactly when it had none, or when each has a URL to point at and the role
      is spelled out: one that is "user" only after trimming and lowering is stripped of its
      bytes and not collapsed. Messages of other roles are left alone. */
  lemma LaterTurnsSeePlaceholders(m: Message)
    ensures var seen := CollapseMessage(Some(Demote(m))).value.blocks;
      if DemotableRole(m.role) then
        (forall b :: b in seen && Attached(b) ==> b.value.payload.bytes == "")
        && ((forall b :: b in seen ==> !Attached(b))
            <==> (forall b :: b in m.blocks ==> !Attached(b))
                 || (m.role == USER && forall b :: b in m.blocks && Attached(b) ==> HasUrl(b.value)))
      else seen == m.blocks
  {
    UserIsDemotable();
    DemotionIsInvisible(m);
    DemotedStaysAttached(m);
    if m.role == USER {
      var seen := Map(CollapseBlock, Map(DemoteBlock, m.blocks));
      forall i | 0 <= i < |m.blocks| ensures Leaves(m.blocks[i], seen[i]) { SeenLater(m.blocks[i]); }
      LeavesAll(m.blocks, seen);
    }
  }
}
