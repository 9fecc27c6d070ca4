/**
 * The terminal panel: a fixed script of lines is typed into `.terminal-body`,
 * each line becoming a `.terminal-line` element.
 */
module Terminal {

  /** A `<span>` child: its class name ("" for none) and its text. */
  datatype Span = Span(className: string, text: string)

  /** A `.terminal-line` element: either plain text or a sequence of spans. */
  datatype Line =
    | TextLine(text: string)
    | SpanLine(spans: seq<Span>)

  /** One scripted line and the delay, in milliseconds, before it appears. */
  datatype ScriptLine = ScriptLine(text: string, delay: nat)

  const PROMPT := Span("prompt", "$")
  const CURSOR := Span("cursor", "_")

  /** The scripted lines, in the order they are scheduled. */
  const SCRIPT: seq<ScriptLine> := [
    ScriptLine("$ cat /about.txt", 0),
    ScriptLine("분기별 고급 기술 아티클", 800),
    ScriptLine("실전 경험 · 성능 최적화", 1200),
    ScriptLine("$ _", 1600)
  ]

  /** `text.startsWith('$')`. */
  predicate IsCommand(text: string)
    ensures IsCommand(text) <==> "$" <= text
  {
    |text| > 0 && text[0] == '$'
  }

  /** The element built for one line of text. */
  function Render(text: string): (line: Line)
    ensures line.SpanLine? <==> IsCommand(text)
    ensures line.TextLine? ==> line.text == text
    ensures line.SpanLine? ==>
      && |line.spans| == (if '_' in text then 3 else 2)
      && line.spans[0] == PROMPT
      && line.spans[1] == Span("", text[1..])
      && (|line.spans| == 3 ==> line.spans[2] == CURSOR)
  {
    if IsCommand(text) then
      SpanLine([PROMPT, Span("", text[1..])] + (if '_' in text then [CURSOR] else []))
    else
      TextLine(text)
  }

  /** The concatenated text of a sequence of spans. */
  function SpansText(spans: seq<Span>): string
  {
    if spans == [] then [] else spans[0].text + SpansText(spans[1..])
  }

  /** The `textContent` of a rendered line. */
  function TextContent(line: Line): string
  {
    match line
    case TextLine(t) => t
    case SpanLine(spans) => SpansText(spans)
  }

  /**
   * Rendering keeps the visible text: a line reads back as its own text,
   * followed by one extra "_" for a command line that contains "_" (the cursor).
   */
  lemma RenderKeepsText(text: string)
    ensures TextContent(Render(text)) == if IsCommand(text) && '_' in text then text + "_" else text
  {
    if IsCommand(text) {
      var spans := Render(text).spans;
      assert text == "$" + text[1..];
      assert SpansText(spans[2..]) == if '_' in text then "_" else "";
      assert SpansText(spans[1..]) == text[1..] + SpansText(spans[2..]);
    }
  }

  /** The script's delays never decrease, so its timers fire in script order. */
  lemma ScriptDelaysNonDecreasing()
    ensures forall i, j :: 0 <= i < j < |SCRIPT| ==> SCRIPT[i].delay <= SCRIPT[j].delay
  {
  }

  /** What the script renders: the first and last lines are commands, the last with a cursor. */
  lemma ScriptRendering()
    ensures Render(SCRIPT[0].text) == SpanLine([PROMPT, Span("", " cat /about.txt")])
    ensures Render(SCRIPT[1].text) == TextLine(SCRIPT[1].text)
    ensures Render(SCRIPT[2].text) == TextLine(SCRIPT[2].text)
    ensures Render(SCRIPT[3].text) == SpanLine([PROMPT, Span("", " _"), CURSOR])
  {
  }

  /** The `.terminal-body` element. */
  class TerminalBody {
    /** Its `.terminal-line` children, in document order. */
    var lines: seq<Line>

    constructor (lines: seq<Line>)
      ensures this.lines == lines
    {
      this.lines := lines;
    }

    /**
     * Clears the body and appends the rendered script lines, one per timer,
     * in the order the timers fire, which is script order.
     */
    method Play()
      modifies this
      ensures |lines| == |SCRIPT|
      ensures forall i :: 0 <= i < |SCRIPT| ==> lines[i] == Render(SCRIPT[i].text)
    {
      ScriptDelaysNonDecreasing();
      var script := SCRIPT;
      lines := [];
      for k := 0 to |script|
        invariant |lines| == k
        invariant forall i :: 0 <= i < k ==> lines[i] == Render(script[i].text)
      {
        var text := script[k].text;
        var line: Line;
        if IsCommand(text) {
          var spans := [PROMPT, Span("", text[1..])];
          if '_' in text {
            spans := spans + [CURSOR];
          }
          line := SpanLine(spans);
        } else {
          line := TextLine(text);
        }
        lines := lines + [line];
      }
    }
  }

  /** The panel after the whole script has run. */
  method TypeScriptScenario(body: TerminalBody)
    modifies body
  {
    body.Play();
    ScriptRendering();
    assert body.lines[3] == SpanLine([PROMPT, Span("", " _"), CURSOR]);
  }
}
