/** The system prompt: template selection by prompt variant (getTemplate) and
    rendering of the markdown template against the card, the persona, the
    character memory and the jailbreak text (renderSystemPrompt).

    The template is held as the part of Mustache it uses: literal text,
    unescaped interpolation (the triple mustache) and sections, which render
    their body once when their value is a non-empty string and nothing when
    it is empty. Rendering yields pieces that remember whether they are
    template text or an interpolated value, so that what the template shows
    can be told apart from what the user wrote. */
module SystemPrompt {
  import opened Shared

  /** The values the template refers to. */
  datatype Field =
    | CharacterName        // card.character.name
    | CharacterDescription // card.character.description
    | WorldDescription     // card.world.description
    | PersonaName          // persona.name
    | PersonaDescription   // persona.description
    | CharacterMemory      // characterMemory
    | MsgExamples          // card.character.msg_examples
    | Jailbreak            // jailbreak

  /** The object the template is rendered against. */
  datatype View = View(card: CardData, persona: PersonaData, characterMemory: string, jailbreak: string)

  function Lookup(v: View, f: Field): string
  {
    match f
    case CharacterName => v.card.character.name
    case CharacterDescription => v.card.character.description
    case WorldDescription => v.card.world.description
    case PersonaName => v.persona.name
    case PersonaDescription => v.persona.description
    case CharacterMemory => v.characterMemory
    case MsgExamples => v.card.character.msgExamples
    case Jailbreak => v.jailbreak
  }

  /** A Mustache section over a string renders its body exactly when the
      string is non-empty. */
  predicate NonEmpty(s: string)
  {
    |s| > 0
  }

  /** Template text, `{{{field}}}`, and `{{#guard}}body{{/guard}}`. */
  datatype Node =
    | Text(text: string)
    | Interpolate(field: Field)
    | Section(guard: Field, body: seq<Node>)

  /** A piece of rendered output: template text, or the value of a field. */
  datatype Piece = Lit(text: string) | Value(field: Field, text: string)

  function Render(nodes: seq<Node>, v: View): seq<Piece>
  {
    if nodes == [] then []
    else
      (match nodes[0]
       case Text(t) => [Lit(t)]
       case Interpolate(f) => [Value(f, Lookup(v, f))]
       case Section(g, body) => if NonEmpty(Lookup(v, g)) then Render(body, v) else [])
      + Render(nodes[1..], v)
  }

  /** The rendered string. */
  function Concat(ps: seq<Piece>): string
  {
    if ps == [] then [] else ps[0].text + Concat(ps[1..])
  }

  /** The optional, titled blocks of the markdown template. */
  datatype Block = CharacterInfo | WorldInfo | UserInfo | CharacterMemoryInfo | MessagesExamples

  /** The field whose non-emptiness shows a block, and which it displays. */
  function Guard(b: Block): Field
  {
    match b
    case CharacterInfo => CharacterDescription
    case WorldInfo => WorldDescription
    case UserInfo => PersonaDescription
    case CharacterMemoryInfo => CharacterMemory
    case MessagesExamples => MsgExamples
  }

  // The template's literal text.
  const Intro := "### Instruction\nYou are now roleplaying as "
  const InChatWith := ". \nYou are in a chat with "
  const EndOfInstruction := ". \n"
  const CharacterInfoHeading := "\n### Character Info\n"
  const WorldInfoHeading := "\n### World Info\n"
  const UserInfoHeading := "\n### User Info\nUser's description: "
  const CharacterMemoryHeading := "\n### Character Memory\n"
  const MessagesExamplesHeading := "\n### Messages Examples\n"
  const Newline := "\n"

  /** The template text that opens a block. */
  function Heading(b: Block): string
  {
    match b
    case CharacterInfo => CharacterInfoHeading
    case WorldInfo => WorldInfoHeading
    case UserInfo => UserInfoHeading
    case CharacterMemoryInfo => CharacterMemoryHeading
    case MessagesExamples => MessagesExamplesHeading
  }

  /** Template text that opens a block: a newline, then a markdown heading. */
  predicate IsHeading(t: string)
  {
    |t| >= 2 && t[0] == '\n' && t[1] == '#'
  }

  /** The inside of a block's section: its heading and its field. */
  function BlockBody(b: Block): seq<Node>
  {
    [Text(Heading(b)), Interpolate(Guard(b)), Text(Newline)]
  }

  /** `{{#guard}}heading{{{guard}}}{{/guard}}`. The section tags stand on
      lines of their own (the closing one joined to the following empty line
      by a line continuation), so Mustache drops those lines whole and
      nothing surrounds the section. */
  function Optional(b: Block): seq<Node>
  {
    [Section(Guard(b), BlockBody(b))]
  }

  /** The optional blocks in their fixed template order. */
  const Blocks := [CharacterInfo, WorldInfo, UserInfo, CharacterMemoryInfo, MessagesExamples]

  /** The instruction naming the character and the persona. */
  function Head(): seq<Node>
  {
    [Text(Intro), Interpolate(CharacterName), Text(InChatWith), Interpolate(PersonaName), Text(EndOfInstruction)]
  }

  /** The jailbreak text, last, straight after the last shown block. */
  function Tail(): seq<Node>
  {
    [Interpolate(Jailbreak)]
  }

  /** The optional blocks `bs`, one after the other. */
  function Optionals(bs: seq<Block>): seq<Node>
  {
    if bs == [] then [] else Optional(bs[0]) + Optionals(bs[1..])
  }

  /** The markdown template, after the source trims it: the instruction
      naming the character and the persona, the five optional blocks in
      their fixed order, then the jailbreak text. */
  function MarkdownTemplate(): seq<Node>
  {
    Head() + Optionals(Blocks) + Tail()
  }

  datatype PromptError = NotImplemented | InvalidVariant

  /** getTemplate: "xml" is not implemented, "markdown" has a template, any
      other variant is invalid. */
  function GetTemplate(variant: string): (r: Result<seq<Node>, PromptError>)
    ensures r.Success? <==> variant == "markdown"
    ensures r.Success? ==> r.value == MarkdownTemplate()
    ensures variant == "xml" ==> r == Failure(NotImplemented)
    ensures variant != "xml" && variant != "markdown" ==> r == Failure(InvalidVariant)
  {
    if variant == "xml" then Failure(NotImplemented)
    else if variant == "markdown" then Success(MarkdownTemplate())
    else Failure(InvalidVariant)
  }

  datatype SystemPromptParams = SystemPromptParams(
    cardData: CardData,
    persona: PersonaData,
    characterMemory: string,
    jailbreak: string,
    variant: string)

  function ViewOf(p: SystemPromptParams): View
  {
    View(p.cardData, p.persona, p.characterMemory, p.jailbreak)
  }

  /** renderSystemPrompt: the template's pieces for these parameters. */
  function PromptPieces(p: SystemPromptParams): Result<seq<Piece>, PromptError>
  {
    match GetTemplate(p.variant)
    case Failure(e) => Failure(e)
    case Success(t) => Success(Render(t, ViewOf(p)))
  }

  /** renderSystemPrompt: fails exactly as getTemplate does; otherwise the
      prompt opens with the instruction naming the character and ends with
      the jailbreak text. */
  function RenderSystemPrompt(p: SystemPromptParams): (r: Result<string, PromptError>)
    ensures r.Success? <==> p.variant == "markdown"
    ensures r.Failure? ==> r.error == GetTemplate(p.variant).error
    ensures r.Success? ==> StartsWith(r.value, Intro + p.cardData.character.name)
    ensures r.Success? ==> EndsWith(r.value, p.jailbreak)
    ensures r.Success? ==> r.value == PromptText(ViewOf(p))
  {
    match PromptPieces(p)
    case Failure(e) => Failure(e)
    case Success(ps) => PromptFrame(ViewOf(p)); RenderedText(ViewOf(p)); Success(Concat(ps))
  }

  /** A shown block as text: its heading, its value, a newline. */
  function BlockText(v: View, b: Block): string
  {
    Heading(b) + Lookup(v, Guard(b)) + Newline
  }

  function BlocksText(v: View, bs: seq<Block>): string
  {
    if bs == [] then [] else BlockText(v, bs[0]) + BlocksText(v, bs[1..])
  }

  /** The markdown prompt written out flat: the instruction naming the
      character and the persona, the blocks whose field is non-empty, then
      the jailbreak text. */
  function PromptText(v: View): string
  {
    Intro + Lookup(v, CharacterName) + InChatWith + Lookup(v, PersonaName) + EndOfInstruction
      + BlocksText(v, Shown(v, Blocks)) + Lookup(v, Jailbreak)
  }

  /** The fields whose values appear, in order. */
  function Fields(ps: seq<Piece>): seq<Field>
  {
    if ps == [] then []
    else (if ps[0].Value? then [ps[0].field] else []) + Fields(ps[1..])
  }

  /** The block headings of the template text, in order. */
  function Outline(ps: seq<Piece>): seq<string>
  {
    if ps == [] then []
    else (if ps[0].Lit? && IsHeading(ps[0].text) then [ps[0].text] else []) + Outline(ps[1..])
  }

  function Headings(bs: seq<Block>): seq<string>
  {
    if bs == [] then [] else [Heading(bs[0])] + Headings(bs[1..])
  }

  /** The optional blocks, in template order, whose field is non-empty. */
  function Shown(v: View, bs: seq<Block>): seq<Block>
  {
    if bs == [] then []
    else (if NonEmpty(Lookup(v, Guard(bs[0]))) then [bs[0]] else []) + Shown(v, bs[1..])
  }

  function GuardsOf(bs: seq<Block>): seq<Field>
  {
    if bs == [] then [] else [Guard(bs[0])] + GuardsOf(bs[1..])
  }

  lemma {:induction false} RenderAppend(a: seq<Node>, b: seq<Node>, v: View)
    ensures Render(a + b, v) == Render(a, v) + Render(b, v)
  {
    if a == [] {
      assert a + b == b;
    } else {
      assert (a + b)[0] == a[0] && (a + b)[1..] == a[1..] + b;
      RenderAppend(a[1..], b, v);
    }
  }

  /** Rendering a list is rendering its first node, then the rest. */
  lemma RenderCons(ns: seq<Node>, v: View)
    requires ns != []
    ensures Render(ns, v) == Render([ns[0]], v) + Render(ns[1..], v)
  {
    assert [ns[0]][1..] == [];
  }

  lemma {:induction false} ConcatAppend(a: seq<Piece>, b: seq<Piece>)
    ensures Concat(a + b) == Concat(a) + Concat(b)
  {
    if a == [] {
      assert a + b == b;
    } else {
      assert (a + b)[1..] == a[1..] + b;
      ConcatAppend(a[1..], b);
    }
  }

  lemma FieldsAppend(a: seq<Piece>, b: seq<Piece>)
    ensures Fields(a + b) == Fields(a) + Fields(b)
    ensures Outline(a + b) == Outline(a) + Outline(b)
  {
    OnlyFieldsAppend(a, b);
    OutlineAppend(a, b);
  }

  lemma {:induction false} OnlyFieldsAppend(a: seq<Piece>, b: seq<Piece>)
    ensures Fields(a + b) == Fields(a) + Fields(b)
  {
    if a == [] {
      assert a + b == b;
    } else {
      var ab := a + b;
      assert ab[0] == a[0] && ab[1..] == a[1..] + b;
      OnlyFieldsAppend(a[1..], b);
    }
  }

  lemma {:induction false} OutlineAppend(a: seq<Piece>, b: seq<Piece>)
    ensures Outline(a + b) == Outline(a) + Outline(b)
  {
    if a == [] {
      assert a + b == b;
    } else {
      var ab := a + b;
      assert ab[0] == a[0] && ab[1..] == a[1..] + b;
      OutlineAppend(a[1..], b);
    }
  }

  lemma RenderText(t: string, v: View)
    ensures Render([Text(t)], v) == [Lit(t)]
  {
    assert [Text(t)][1..] == [];
  }

  lemma RenderInterpolate(f: Field, v: View)
    ensures Render([Interpolate(f)], v) == [Value(f, Lookup(v, f))]
  {
    assert [Interpolate(f)][1..] == [];
  }

  lemma PieceFields(x: Piece)
    ensures Fields([x]) == if x.Value? then [x.field] else []
    ensures Outline([x]) == if x.Lit? && IsHeading(x.text) then [x.text] else []
  {
    assert [x][1..] == [];
  }

  lemma FieldsCons(ps: seq<Piece>)
    requires ps != []
    ensures Fields(ps) == Fields([ps[0]]) + Fields(ps[1..])
    ensures Outline(ps) == Outline([ps[0]]) + Outline(ps[1..])
  {
    PieceFields(ps[0]);
  }

  /** Only the block headings read as headings. */
  lemma HeadingTexts()
    ensures !IsHeading(Intro) && !IsHeading(InChatWith) && !IsHeading(EndOfInstruction)
    ensures !IsHeading(Newline)
    ensures forall b :: IsHeading(Heading(b))
  {
    assert Intro[0] == '#';
    assert InChatWith[0] == '.';
    assert EndOfInstruction[0] == '.';
    assert |Newline| == 1;
    forall b ensures IsHeading(Heading(b)) {
      assert Heading(b)[0] == '\n' && Heading(b)[1] == '#';
    }
  }

  lemma RenderBlockBody(b: Block, v: View)
    ensures Render(BlockBody(b), v) == [Lit(Heading(b)), Value(Guard(b), Lookup(v, Guard(b))), Lit(Newline)]
  {
    var body := BlockBody(b);
    RenderCons(body, v);
    RenderCons(body[1..], v);
    RenderCons(body[1..][1..], v);
    RenderText(Heading(b), v);
    RenderInterpolate(Guard(b), v);
    RenderText(Newline, v);
    assert body[1..][1..][1..] == [];
  }

  lemma BlockBodyFields(b: Block, v: View)
    ensures Fields(Render(BlockBody(b), v)) == [Guard(b)]
    ensures Outline(Render(BlockBody(b), v)) == [Heading(b)]
  {
    RenderBlockBody(b, v);
    var ps := Render(BlockBody(b), v);
    HeadingTexts();
    FieldsCons(ps);
    FieldsCons(ps[1..]);
    FieldsCons(ps[1..][1..]);
    PieceFields(ps[0]);
    PieceFields(ps[1]);
    PieceFields(ps[2]);
    assert ps[1..][1..][1..] == [];
  }

  /** An optional block renders its heading, its value and a newline when
      its field is non-empty, and nothing otherwise. */
  lemma RenderOptional(b: Block, v: View)
    ensures Render(Optional(b), v)
         == if NonEmpty(Lookup(v, Guard(b))) then Render(BlockBody(b), v) else []
    ensures Fields(Render(Optional(b), v)) == if NonEmpty(Lookup(v, Guard(b))) then [Guard(b)] else []
    ensures Outline(Render(Optional(b), v)) == if NonEmpty(Lookup(v, Guard(b))) then [Heading(b)] else []
  {
    var o := Optional(b);
    RenderCons(o, v);
    assert o[1..] == [];
    BlockBodyFields(b, v);
  }

  /** Rendered optional blocks show, in order, exactly the blocks whose
      field is non-empty. */
  lemma {:induction false} RenderOptionals(bs: seq<Block>, v: View)
    ensures Outline(Render(Optionals(bs), v)) == Headings(Shown(v, bs))
    ensures Fields(Render(Optionals(bs), v)) == GuardsOf(Shown(v, bs))
  {
    if bs != [] {
      RenderOptionals(bs[1..], v);
      RenderAppend(Optional(bs[0]), Optionals(bs[1..]), v);
      RenderOptional(bs[0], v);
      FieldsAppend(Render(Optional(bs[0]), v), Render(Optionals(bs[1..]), v));
      GuardsAppend(if NonEmpty(Lookup(v, Guard(bs[0]))) then [bs[0]] else [], Shown(v, bs[1..]));
      HeadingsAppend(if NonEmpty(Lookup(v, Guard(bs[0]))) then [bs[0]] else [], Shown(v, bs[1..]));
    }
  }

  lemma {:induction false} GuardsAppend(a: seq<Block>, b: seq<Block>)
    ensures GuardsOf(a + b) == GuardsOf(a) + GuardsOf(b)
  {
    if a == [] {
      assert a + b == b;
    } else {
      assert (a + b)[1..] == a[1..] + b;
      GuardsAppend(a[1..], b);
    }
  }

  lemma {:induction false} HeadingsAppend(a: seq<Block>, b: seq<Block>)
    ensures Headings(a + b) == Headings(a) + Headings(b)
  {
    if a == [] {
      assert a + b == b;
    } else {
      assert (a + b)[1..] == a[1..] + b;
      HeadingsAppend(a[1..], b);
    }
  }

  /** The head of the template renders flat. */
  lemma RenderHead(v: View)
    ensures Render(Head(), v)
         == [Lit(Intro), Value(CharacterName, Lookup(v, CharacterName)),
             Lit(InChatWith), Value(PersonaName, Lookup(v, PersonaName)), Lit(EndOfInstruction)]
  {
    var h := Head();
    RenderCons(h, v);
    RenderCons(h[1..], v);
    RenderCons(h[2..], v);
    RenderCons(h[3..], v);
    RenderCons(h[4..], v);
    assert h[1..][1..] == h[2..] && h[2..][1..] == h[3..] && h[3..][1..] == h[4..] && h[4..][1..] == [];
    RenderText(Intro, v);
    RenderInterpolate(CharacterName, v);
    RenderText(InChatWith, v);
    RenderInterpolate(PersonaName, v);
    RenderText(EndOfInstruction, v);
  }

  lemma HeadFields(v: View)
    ensures Fields(Render(Head(), v)) == [CharacterName, PersonaName]
    ensures Outline(Render(Head(), v)) == []
  {
    HeadOnlyFields(v);
    HeadOutline(v);
  }

  lemma HeadOnlyFields(v: View)
    ensures Fields(Render(Head(), v)) == [CharacterName, PersonaName]
  {
    RenderHead(v);
    var h := Render(Head(), v);
    var b, c, d, e := Value(CharacterName, Lookup(v, CharacterName)), Lit(InChatWith),
                      Value(PersonaName, Lookup(v, PersonaName)), Lit(EndOfInstruction);
    assert h[1..] == [b, c, d, e] && [b, c, d, e][1..] == [c, d, e];
    assert [c, d, e][1..] == [d, e] && [d, e][1..] == [e] && [e][1..] == [];
    assert Fields([e]) == [];
    assert Fields([d, e]) == [PersonaName];
    assert Fields([c, d, e]) == [PersonaName];
    assert Fields([b, c, d, e]) == [CharacterName, PersonaName];
  }

  lemma HeadOutline(v: View)
    ensures Outline(Render(Head(), v)) == []
  {
    RenderHead(v);
    HeadingTexts();
    var h := Render(Head(), v);
    var b, c, d, e := Value(CharacterName, Lookup(v, CharacterName)), Lit(InChatWith),
                      Value(PersonaName, Lookup(v, PersonaName)), Lit(EndOfInstruction);
    assert h[1..] == [b, c, d, e] && [b, c, d, e][1..] == [c, d, e];
    assert [c, d, e][1..] == [d, e] && [d, e][1..] == [e] && [e][1..] == [];
    assert Outline([e]) == [];
    assert Outline([d, e]) == [];
    assert Outline([c, d, e]) == [];
    assert Outline([b, c, d, e]) == [];
  }

  /** The tail of the template renders flat. */
  lemma RenderTail(v: View)
    ensures Render(Tail(), v) == [Value(Jailbreak, Lookup(v, Jailbreak))]
    ensures Fields(Render(Tail(), v)) == [Jailbreak]
    ensures Outline(Render(Tail(), v)) == []
  {
    RenderInterpolate(Jailbreak, v);
    PieceFields(Value(Jailbreak, Lookup(v, Jailbreak)));
  }

  /** What the rendered prompt shows, for every card and persona: the
      character's and the persona's names, then exactly the optional blocks
      whose field is non-empty, each under its heading and in the fixed
      order Character Info, World Info, User Info, Character Memory,
      Messages Examples, then the jailbreak text last. */
  lemma MarkdownSections(v: View)
    ensures Outline(Render(MarkdownTemplate(), v)) == Headings(Shown(v, Blocks))
    ensures Fields(Render(MarkdownTemplate(), v))
         == [CharacterName, PersonaName] + GuardsOf(Shown(v, Blocks)) + [Jailbreak]
  {
    var tail := Tail();
    RenderAppend(Head() + Optionals(Blocks), tail, v);
    RenderAppend(Head(), Optionals(Blocks), v);
    HeadFields(v);
    RenderTail(v);
    RenderOptionals(Blocks, v);
    var h, o, t := Render(Head(), v), Render(Optionals(Blocks), v), Render(tail, v);
    FieldsAppend(h + o, t);
    FieldsAppend(h, o);
  }

  lemma {:induction false} InShown(v: View, bs: seq<Block>, b: Block)
    ensures b in Shown(v, bs) <==> b in bs && NonEmpty(Lookup(v, Guard(b)))
  {
    if bs != [] {
      InShown(v, bs[1..], b);
      assert bs == [bs[0]] + bs[1..];
    }
  }

  /** A block's heading is in the prompt exactly when its field is non-empty. */
  lemma SectionShownIff(v: View, b: Block)
    ensures Heading(b) in Outline(Render(MarkdownTemplate(), v)) <==> NonEmpty(Lookup(v, Guard(b)))
  {
    MarkdownSections(v);
    InShown(v, Blocks, b);
    HeadingsMember(Shown(v, Blocks), b);
    BlockListed(b);
  }

  lemma BlockListed(b: Block)
    ensures b in Blocks
  {
    match b
    case CharacterInfo => assert Blocks[0] == b;
    case WorldInfo => assert Blocks[1] == b;
    case UserInfo => assert Blocks[2] == b;
    case CharacterMemoryInfo => assert Blocks[3] == b;
    case MessagesExamples => assert Blocks[4] == b;
  }

  lemma {:induction false} HeadingsMember(bs: seq<Block>, b: Block)
    ensures Heading(b) in Headings(bs) <==> b in bs
  {
    if bs != [] {
      HeadingsMember(bs[1..], b);
      if Heading(b) == Heading(bs[0]) {
        HeadingInjective(b, bs[0]);
      }
      assert bs == [bs[0]] + bs[1..];
    }
  }

  /** Different blocks have different headings (their lengths differ). */
  lemma HeadingInjective(a: Block, b: Block)
    requires Heading(a) == Heading(b)
    ensures a == b
  {
    assert |Heading(a)| == |Heading(b)|;
  }

  /** The prompt opens with the instruction naming the character and ends
      with the jailbreak text. */
  lemma PromptFrame(v: View)
    ensures StartsWith(Concat(Render(MarkdownTemplate(), v)), Intro + Lookup(v, CharacterName))
    ensures EndsWith(Concat(Render(MarkdownTemplate(), v)), Lookup(v, Jailbreak))
  {
    RenderedText(v);
    var pre := Intro + Lookup(v, CharacterName);
    var x1 := pre + InChatWith;
    var x2 := x1 + Lookup(v, PersonaName);
    var x3 := x2 + EndOfInstruction;
    var x4 := x3 + BlocksText(v, Shown(v, Blocks));
    assert pre[..|pre|] == pre;
    StartsWithAppend(pre, pre, InChatWith);
    StartsWithAppend(x1, pre, Lookup(v, PersonaName));
    StartsWithAppend(x2, pre, EndOfInstruction);
    StartsWithAppend(x3, pre, BlocksText(v, Shown(v, Blocks)));
    StartsWithAppend(x4, pre, Lookup(v, Jailbreak));
    EndsWithAppend(x4, Lookup(v, Jailbreak));
  }

  lemma StartsWithAppend(s: string, t: string, u: string)
    requires StartsWith(s, t)
    ensures StartsWith(s + u, t)
  {
    assert (s + u)[..|t|] == s[..|t|];
  }

  lemma EndsWithAppend(s: string, t: string)
    ensures EndsWith(s + t, t)
  {
    assert (s + t)[|s|..] == t;
  }

  lemma BlockBodyText(b: Block, v: View)
    ensures Concat(Render(BlockBody(b), v)) == BlockText(v, b)
  {
    RenderBlockBody(b, v);
    var x, y, z := Lit(Heading(b)), Value(Guard(b), Lookup(v, Guard(b))), Lit(Newline);
    assert [x, y, z][1..] == [y, z] && [y, z][1..] == [z] && [z][1..] == [];
    assert Concat([z]) == Newline;
    assert Concat([y, z]) == Lookup(v, Guard(b)) + Newline;
    assert Concat([x, y, z]) == Heading(b) + (Lookup(v, Guard(b)) + Newline);
  }

  /** The optional blocks render to the text of the shown ones. */
  lemma {:induction false} OptionalsText(bs: seq<Block>, v: View)
    ensures Concat(Render(Optionals(bs), v)) == BlocksText(v, Shown(v, bs))
  {
    if bs != [] {
      var b := bs[0];
      OptionalsText(bs[1..], v);
      RenderAppend(Optional(b), Optionals(bs[1..]), v);
      RenderOptional(b, v);
      ConcatAppend(Render(Optional(b), v), Render(Optionals(bs[1..]), v));
      if NonEmpty(Lookup(v, Guard(b))) {
        BlockBodyText(b, v);
        assert ([b] + Shown(v, bs[1..]))[1..] == Shown(v, bs[1..]);
      } else {
        assert Shown(v, bs) == Shown(v, bs[1..]);
      }
    }
  }

  lemma HeadText(v: View)
    ensures Concat(Render(Head(), v))
         == Intro + Lookup(v, CharacterName) + InChatWith + Lookup(v, PersonaName) + EndOfInstruction
  {
    RenderHead(v);
    ConcatFive(Lit(Intro), Value(CharacterName, Lookup(v, CharacterName)), Lit(InChatWith),
               Value(PersonaName, Lookup(v, PersonaName)), Lit(EndOfInstruction));
  }

  lemma ConcatFive(a: Piece, b: Piece, c: Piece, d: Piece, e: Piece)
    ensures Concat([a, b, c, d, e]) == a.text + b.text + c.text + d.text + e.text
  {
    ConcatCons(e, []);
    ConcatCons(d, [e]);
    ConcatCons(c, [d, e]);
    ConcatCons(b, [c, d, e]);
    ConcatCons(a, [b, c, d, e]);
    assert [a] + [b, c, d, e] == [a, b, c, d, e];
  }

  lemma ConcatCons(p: Piece, rest: seq<Piece>)
    ensures Concat([p] + rest) == p.text + Concat(rest)
  {
    assert ([p] + rest)[1..] == rest;
  }

  /** Rendering the markdown template gives the prompt written out flat. */
  lemma RenderedText(v: View)
    ensures Concat(Render(MarkdownTemplate(), v)) == PromptText(v)
  {
    RenderAppend(Head() + Optionals(Blocks), Tail(), v);
    RenderAppend(Head(), Optionals(Blocks), v);
    HeadText(v);
    RenderTail(v);
    OptionalsText(Blocks, v);
    var h, o, t := Render(Head(), v), Render(Optionals(Blocks), v), Render(Tail(), v);
    ConcatAppend(h + o, t);
    ConcatAppend(h, o);
    assert Concat(t) == Lookup(v, Jailbreak) by {
      assert t[1..] == [];
    }
  }
}
