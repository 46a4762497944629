/**
 * The scripted terminal: on Enter the input is trimmed and lower-cased, echoed as a
 * prompt line, and answered from a fixed command table; 'clear' wipes the screen.
 */
module Terminal {
  import opened Text

  /** One line of the terminal's output element. */
  datatype Line =
    | Echo(command: string)  // a prompt line showing what was entered
    | Output(html: string)   // a reply, shown with its whitespace kept

  /** The table value that asks for the screen to be cleared. */
  const ClearScreen: string := "CLEAR_SCREEN"

  /** The reply to help: the list of commands. */
  const HelpText: string := "Available commands:\n    <span class=\"text-cyan\">help</span>   - Show this list\n    <span class=\"text-cyan\">about</span>  - Read bio\n    <span class=\"text-cyan\">skills</span> - View technical stack\n    <span class=\"text-cyan\">clear</span>  - Clear terminal screen"

  /** The reply to about: a short biography. */
  const AboutText: string := "> Executing bio.sh...\n    I am Kaustubh Mestri, a Generative AI Developer.\n    Specializing in building robust RAG systems, integrating complex LLMs, and architecting scalable AI solutions.\n    Pushing boundaries in search, agents, and data."

  /** The reply to skills: the technical stack. */
  const SkillsText: string := "> Loading competencies...\n    <span class=\"text-purple\">Backend:</span> Python, FastAPI, Node.js\n    <span class=\"text-purple\">AI/ML:</span>   LangChain, OpenAI, Gemini, HuggingFace\n    <span class=\"text-purple\">Data:</span>    Pandas, Vector DBs (Pinecone, Chroma)\n    <span class=\"text-purple\">Infra:</span>   Docker, AWS, Git"

  /** terminalCommands: command name to reply. */
  const Commands: map<string, string> := map[
    "help" := HelpText,
    "about" := AboutText,
    "skills" := SkillsText,
    "clear" := ClearScreen]

  /** The reply to a command that is not in the table. */
  function NotFound(command: string): (text: string)
    ensures |text| > 6 + |command| && text[..6] == "bash: " && text[6..6 + |command|] == command
  {
    "bash: " + command + ": command not found. Type <span class=\"text-cyan\">'help'</span>."
  }

  /** this.value.trim().toLowerCase() */
  function Normalize(input: string): string
  {
    ToLower(Trim(input))
  }

  /** The command clears the screen: it is in the table with the clear-screen value. */
  predicate ClearsScreen(command: string)
  {
    command in Commands && Commands[command] == ClearScreen
  }

  /** The transcript after Enter with the (normalised) command. */
  function Respond(lines: seq<Line>, command: string): seq<Line>
  {
    if command == "" then lines + [Echo("")]
    else if command in Commands then
      if ClearsScreen(command) then [] else lines + [Echo(command), Output(Commands[command])]
    else lines + [Echo(command), Output(NotFound(command))]
  }

  /** Only 'clear' clears the screen. */
  lemma ClearsScreenOnlyClear(command: string)
    ensures ClearsScreen(command) <==> command == "clear"
  {
  }

  /**
   * Enter never removes a line except through 'clear', which leaves nothing;
   * every other command keeps the transcript and echoes itself after it.
   */
  lemma {:induction false} RespondShape(lines: seq<Line>, command: string)
    ensures Respond(lines, command) == [] <==> command == "clear"
    ensures command != "clear" ==>
      |Respond(lines, command)| > |lines| &&
      Respond(lines, command)[..|lines|] == lines &&
      Respond(lines, command)[|lines|] == Echo(command)
  {
    ClearsScreenOnlyClear(command);
  }

  /** A known command other than 'clear' prints its table text after the echo. */
  lemma KnownCommand(lines: seq<Line>, command: string)
    requires command in Commands && command != "clear"
    ensures Respond(lines, command) == lines + [Echo(command), Output(Commands[command])]
  {
    ClearsScreenOnlyClear(command);
  }

  /** An unknown command is echoed and answered with a line naming it. */
  lemma UnknownCommand(lines: seq<Line>, command: string)
    requires command != "" && command !in Commands
    ensures Respond(lines, command) == lines + [Echo(command), Output(NotFound(command))]
  {
  }

  /** An empty (or all-whitespace) entry adds one empty echo line. */
  lemma EmptyCommand(lines: seq<Line>, input: string)
    requires forall k :: 0 <= k < |input| ==> IsWhitespace(input[k])
    ensures Respond(lines, Normalize(input)) == lines + [Echo("")]
  {
    TrimAllWhitespace(input);
  }

  /** A normalised command has no surrounding whitespace and no upper-case ASCII letter. */
  lemma {:induction false} NormalizeShape(input: string)
    ensures var c := Normalize(input);
      && (c == [] || (!IsWhitespace(c[0]) && !IsWhitespace(c[|c| - 1])))
      && (forall i :: 0 <= i < |c| ==> !('A' <= c[i] <= 'Z'))
  {
    var t := Trim(input);
    LowerKeepsWhitespace(t);
  }

  /** Normalising twice is normalising once. */
  lemma {:induction false} NormalizeIdempotent(input: string)
    ensures Normalize(Normalize(input)) == Normalize(input)
  {
    var c := Normalize(input);
    NormalizeShape(input);
    assert TrimStart(c) == c;
    assert TrimEnd(c) == c;
    ToLowerIdempotent(Trim(input));
  }

  /** The terminal widget: its output lines and the value of its input field. */
  class Console {
    var lines: seq<Line>
    var input: string

    constructor (lines: seq<Line>)
      ensures this.lines == lines && input == ""
    {
      this.lines := lines;
      input := "";
    }

    /** addTerminalLine: a new line just above the input line. */
    method AddLine(line: Line)
      modifies this`lines
      ensures lines == old(lines) + [line]
    {
      lines := lines + [line];
    }

    /** Removes every output line (the input line is not one of them). */
    method RemoveLines()
      modifies this`lines
      ensures lines == []
    {
      var shown := lines;
      for i := 0 to |shown|
        invariant lines == shown[i..]
      {
        lines := lines[1..];
      }
    }

    /** The Enter branch for an already normalised command, before the input is reset. */
    method Run(command: string)
      modifies this`lines
      ensures lines == Respond(old(lines), command)
    {
      if command != "" {
        AddLine(Echo(command));
        if command in Commands {
          if ClearsScreen(command) {
            RemoveLines();
          } else {
            AddLine(Output(Commands[command]));
          }
        } else {
          AddLine(Output(NotFound(command)));
        }
      } else {
        AddLine(Echo(""));
      }
    }

    /** The keydown handler of the input field. */
    method KeyDown(key: string)
      modifies this
      ensures key == "Enter" ==> lines == Respond(old(lines), Normalize(old(input))) && input == ""
      ensures key != "Enter" ==> lines == old(lines) && input == old(input)
    {
      if key == "Enter" {
        var command := Normalize(input);
        Run(command);
        input := "";
      }
    }
  }
}
