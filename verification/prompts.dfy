/** Prompt templating (prompt_manager.py): a closed set of styles, each
    with a fixed template, and the `", "`-joined prompt built from it. */
module Prompts {
  import opened Wrappers
  import opened Strings

  /** The closed style enumeration. */
  datatype Style = Fantasy | Retro | Abstract | Minimalist | Cyberpunk

  /** `style.value`. */
  function Value(style: Style): string
  {
    match style
    case Fantasy => "fantasy"
    case Retro => "retro"
    case Abstract => "abstract"
    case Minimalist => "minimalist"
    case Cyberpunk => "cyberpunk"
  }

  /** One entry of the template table: element phrases, a lighting phrase
      and a quality phrase. */
  datatype Template = Template(elements: seq<string>, lighting: string, quality: string)

  /** The template table. The `match` is exhaustive, so every style has a
      template and the lookup cannot fail; templates are values, so no
      call can alter the table. */
  function TemplateOf(style: Style): (t: Template)
    ensures |t.elements| == 3
  {
    match style
    case Fantasy =>
      Template(["magical forest", "glowing elements", "mystical atmosphere"],
               "cinematic lighting, soft ethereal glow",
               "highly detailed, fantasy art style")
    case Retro =>
      Template(["vintage aesthetic", "retro colors", "classic design"],
               "warm nostalgic lighting",
               "vintage poster style, high quality")
    case Abstract =>
      Template(["geometric shapes", "flowing forms", "abstract composition"],
               "dramatic lighting, color gradients",
               "modern abstract art, professional")
    case Minimalist =>
      Template(["clean lines", "simple composition", "negative space"],
               "soft even lighting",
               "minimalist design, elegant")
    case Cyberpunk =>
      Template(["neon lights", "futuristic city", "digital elements"],
               "neon lighting, dramatic shadows",
               "cyberpunk aesthetic, high detail")
  }

  /** The opening phrase of every prompt. */
  function Header(subject: string, style: Style): string
  {
    "A " + Value(style) + " album cover illustration of " + subject
  }

  /** The caller's extra elements; an absent list contributes nothing. */
  function Extras(custom: Option<seq<string>>): seq<string>
  {
    match custom
    case None => []
    case Some(c) => c
  }

  /** `PromptManager.create_prompt`. The element list is a fresh copy of
      the template's list, extended with the caller's elements only when
      they are present and non-empty; the four parts are then joined. */
  function CreatePrompt(subject: string, style: Style, custom: Option<seq<string>>): (prompt: string)
    ensures prompt == Join([Header(subject, style)] + (TemplateOf(style).elements + Extras(custom))
                           + [TemplateOf(style).lighting, TemplateOf(style).quality], ", ")
    ensures |Header(subject, style)| <= |prompt| && prompt[..|Header(subject, style)|] == Header(subject, style)
    ensures EndsWith(prompt, ", " + TemplateOf(style).lighting + ", " + TemplateOf(style).quality)
  {
    var template := TemplateOf(style);
    var elements := template.elements;
    var elements := if custom.Some? && |custom.value| > 0 then elements + custom.value else elements;
    PromptShape(Header(subject, style), elements, template.lighting, template.quality);
    assert elements == template.elements + Extras(custom);
    Join([Header(subject, style), Join(elements, ", "), template.lighting, template.quality], ", ")
  }

  /** Joining the element list first and then the four parts is the same
      as joining every phrase in one go; the header opens the result and
      the lighting and quality phrases close it. */
  lemma PromptShape(header: string, elements: seq<string>, lighting: string, quality: string)
    requires elements != []
    ensures Join([header, Join(elements, ", "), lighting, quality], ", ")
         == Join([header] + elements + [lighting, quality], ", ")
    ensures var p := Join([header, Join(elements, ", "), lighting, quality], ", ");
            |header| <= |p| && p[..|header|] == header && EndsWith(p, ", " + lighting + ", " + quality)
  {
    var sep := ", ";
    var p := Join([header, Join(elements, sep), lighting, quality], sep);
    JoinAppend([header], elements + [lighting, quality], sep);
    JoinAppend(elements, [lighting, quality], sep);
    assert [header] + elements + [lighting, quality] == [header] + (elements + [lighting, quality]);
    assert [header, Join(elements, sep), lighting, quality][1..] == [Join(elements, sep), lighting, quality];
    assert [Join(elements, sep), lighting, quality][1..] == [lighting, quality];
    assert [lighting, quality][1..] == [quality];
    var tail := sep + lighting + sep + quality;
    assert Join([lighting, quality], sep) == lighting + sep + quality;
    assert Join([Join(elements, sep), lighting, quality], sep) == Join(elements, sep) + sep + (lighting + sep + quality);
    assert p == header + sep + (Join(elements, sep) + sep + (lighting + sep + quality));
    assert p == header + (sep + Join(elements, sep)) + tail;
    assert p[..|header|] == header;
    assert p[|p| - |tail|..] == tail;
  }

  /** An absent extra-element list and an empty one give the same prompt. */
  lemma AbsentExtrasAsEmpty(subject: string, style: Style)
    ensures CreatePrompt(subject, style, None) == CreatePrompt(subject, style, Some([]))
  {
  }

  /** The style a prompt was built for, read back from its opening
      phrase: the five style names begin with five different letters. */
  function StyleOf(prompt: string): (r: Option<Style>)
    ensures r.Some? ==> StartsWithHeader(prompt, r.value)
  {
    if |prompt| < 3 then None
    else
      var candidate :=
        match prompt[2]
        case 'f' => Some(Fantasy)
        case 'r' => Some(Retro)
        case 'a' => Some(Abstract)
        case 'm' => Some(Minimalist)
        case 'c' => Some(Cyberpunk)
        case _ => None;
      if candidate.Some? && StartsWithHeader(prompt, candidate.value) then candidate else None
  }

  /** `prompt` opens with the style's phrase "A <style> album cover
      illustration of ". */
  predicate StartsWithHeader(prompt: string, style: Style)
  {
    var h := Header("", style);
    |h| <= |prompt| && prompt[..|h|] == h
  }

  /** The style is recoverable from every prompt built for it. */
  lemma StyleOfCreatePrompt(subject: string, style: Style, custom: Option<seq<string>>)
    ensures StyleOf(CreatePrompt(subject, style, custom)) == Some(style)
  {
    var p := CreatePrompt(subject, style, custom);
    StyleOfHeaderPrefix(p, subject, style);
  }

  /** Any text opening with a style's header is read back as that style. */
  lemma StyleOfHeaderPrefix(p: string, subject: string, style: Style)
    requires |Header(subject, style)| <= |p| && p[..|Header(subject, style)|] == Header(subject, style)
    ensures StyleOf(p) == Some(style)
  {
    var h := Header(subject, style);
    var h0 := Header("", style);
    assert h == h0 + subject;
    assert p[..|h0|] == h[..|h0|] == h0;
    assert p[2] == h0[2] == Value(style)[0];
  }

  /** `PromptManager.get_default_prompt`: the Fantasy prompt about a girl
      stepping through a glowing door, with three fixed extras. */
  function DefaultPrompt(): (prompt: string)
    ensures prompt == Join([Header("a girl with a sword stepping into a glowing blue door", Fantasy),
                            "magical forest", "glowing elements", "mystical atmosphere",
                            "fireflies", "misty background", "mysterious and hopeful atmosphere",
                            "cinematic lighting, soft ethereal glow",
                            "highly detailed, fantasy art style"], ", ")
    ensures StyleOf(prompt) == Some(Fantasy)
  {
    var subject := "a girl with a sword stepping into a glowing blue door";
    var extras := ["fireflies", "misty background", "mysterious and hopeful atmosphere"];
    var template := TemplateOf(Fantasy);
    StyleOfCreatePrompt(subject, Fantasy, Some(extras));
    assert [Header(subject, Fantasy)] + (template.elements + extras) + [template.lighting, template.quality]
        == [Header(subject, Fantasy),
            "magical forest", "glowing elements", "mystical atmosphere",
            "fireflies", "misty background", "mysterious and hopeful atmosphere",
            "cinematic lighting, soft ethereal glow",
            "highly detailed, fantasy art style"];
    CreatePrompt(subject, Fantasy, Some(extras))
  }
}
