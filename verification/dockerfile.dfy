/** The Dockerfile text the advanced deployment endpoint writes: a `FROM`
    header for the requested base image, one `RUN` step per build command in
    the order given, then the fixed `COPY` and `CMD` steps. */
module Dockerfile {
  import opened Text

  /** The header as the triple-quoted f-string leaves it: a newline, eight
      spaces of indentation, the FROM line, a newline and eight more spaces. */
  function Header(baseImage: string): string {
    "\n        FROM " + baseImage + "\n        "
  }

  function RunStep(command: string): string {
    "\nRUN " + command
  }

  /** The RUN steps of `commands`, in order. */
  function RunSteps(commands: seq<string>): string {
    if commands == [] then "" else RunSteps(commands[..|commands| - 1]) + RunStep(commands[|commands| - 1])
  }

  const CopyStep := "\nCOPY . ."
  const CmdStep := "\nCMD [\"app.lambda_handler\"]"

  /** The whole Dockerfile: it opens with the FROM header and closes with the COPY and CMD steps. */
  function AdvancedDockerfile(baseImage: string, commands: seq<string>): (content: string)
    ensures |content| >= |Header(baseImage)| + |CopyStep + CmdStep|
    ensures content[..|Header(baseImage)|] == Header(baseImage)
    ensures content[|content| - |CopyStep + CmdStep|..] == CopyStep + CmdStep
  {
    Header(baseImage) + RunSteps(commands) + CopyStep + CmdStep
  }

  /** The content as the endpoint builds it, one appended step at a time. */
  method BuildAdvancedDockerfile(baseImage: string, commands: seq<string>) returns (content: string)
    ensures content == AdvancedDockerfile(baseImage, commands)
    ensures content[..|Header(baseImage)|] == Header(baseImage)
    ensures content[|content| - |CopyStep + CmdStep|..] == CopyStep + CmdStep
  {
    content := Header(baseImage);
    for i := 0 to |commands|
      invariant content == Header(baseImage) + RunSteps(commands[..i])
    {
      assert commands[..i + 1][..i] == commands[..i];
      content := content + RunStep(commands[i]);
    }
    assert commands[..|commands|] == commands;
    content := content + CopyStep;
    content := content + CmdStep;
  }

  /** The steps of two command lists in a row are the steps of their concatenation. */
  lemma {:induction false} RunStepsAppend(a: seq<string>, b: seq<string>)
    ensures RunSteps(a + b) == RunSteps(a) + RunSteps(b)
    decreases |b|
  {
    if b == [] {
      assert a + b == a;
    } else {
      var init := b[..|b| - 1];
      assert (a + b)[..|a + b| - 1] == a + init;
      RunStepsAppend(a, init);
    }
  }

  /** One more command adds its step at the end. */
  lemma RunStepsSnoc(commands: seq<string>, command: string)
    ensures RunSteps(commands + [command]) == RunSteps(commands) + RunStep(command)
  {
    assert (commands + [command])[..|commands|] == commands;
  }

  lemma SplitAround(s: seq<string>, i: nat)
    requires i < |s|
    ensures s == (s[..i] + [s[i]]) + s[i + 1..]
  {
  }

  /** The i-th command's step sits after the steps of the commands before it
      and before the steps of the commands after it. */
  lemma RunStepsAt(commands: seq<string>, i: nat)
    requires i < |commands|
    ensures RunSteps(commands) == RunSteps(commands[..i]) + RunStep(commands[i]) + RunSteps(commands[i + 1..])
  {
    var before, command, after := commands[..i], commands[i], commands[i + 1..];
    calc {
      RunSteps(commands);
      { SplitAround(commands, i); }
      RunSteps((before + [command]) + after);
      { RunStepsAppend(before + [command], after); }
      RunSteps(before + [command]) + RunSteps(after);
      { RunStepsSnoc(before, command); }
      RunSteps(before) + RunStep(command) + RunSteps(after);
    }
  }

  /** The `RUN` line of each command, in order. */
  function RunLines(commands: seq<string>): seq<string> {
    seq(|commands|, i requires 0 <= i < |commands| => "RUN " + commands[i])
  }

  function HeaderLines(baseImage: string): seq<string> {
    ["", "        FROM " + baseImage, "        "]
  }

  /** The Dockerfile's lines: an empty first line, the FROM line, an indentation-only
      line, a `RUN` line per command in order, the COPY line and the CMD line. */
  function Lines(baseImage: string, commands: seq<string>): (lines: seq<string>)
    ensures |lines| == |commands| + 5
  {
    HeaderLines(baseImage) + RunLines(commands) + ["COPY . .", "CMD [\"app.lambda_handler\"]"]
  }

  lemma HeaderIsJoin(baseImage: string)
    ensures Header(baseImage) == Join(HeaderLines(baseImage), '\n')
  {
    JoinSnoc(["", "        FROM " + baseImage], "        ", '\n');
    JoinSnoc([""], "        FROM " + baseImage, '\n');
    assert ["", "        FROM " + baseImage] + ["        "] == HeaderLines(baseImage);
    assert [""] + ["        FROM " + baseImage] == ["", "        FROM " + baseImage];
  }

  /** Header and RUN steps are the joined lines up to the last RUN line. */
  lemma {:induction false} HeadIsJoin(baseImage: string, commands: seq<string>)
    ensures Header(baseImage) + RunSteps(commands) == Join(HeaderLines(baseImage) + RunLines(commands), '\n')
    decreases |commands|
  {
    var head := HeaderLines(baseImage);
    if commands == [] {
      assert head + RunLines(commands) == head;
      HeaderIsJoin(baseImage);
    } else {
      var init := commands[..|commands| - 1];
      var last := commands[|commands| - 1];
      var runLast := "RUN " + last;
      assert RunStep(last) == ['\n'] + runLast;
      assert RunLines(commands) == RunLines(init) + [runLast];
      HeadIsJoin(baseImage, init);
      JoinSnoc(head + RunLines(init), runLast, '\n');
      calc {
        Header(baseImage) + RunSteps(commands);
        Header(baseImage) + (RunSteps(init) + RunStep(last));
        (Header(baseImage) + RunSteps(init)) + RunStep(last);
        Join(head + RunLines(init), '\n') + (['\n'] + runLast);
        Join(head + RunLines(init), '\n') + ['\n'] + runLast;
        Join(head + RunLines(init) + [runLast], '\n');
        { assert head + RunLines(init) + [runLast] == head + RunLines(commands); }
        Join(head + RunLines(commands), '\n');
      }
    }
  }

  lemma LinesHaveNoNewline(baseImage: string, commands: seq<string>)
    requires '\n' !in baseImage
    requires forall i :: 0 <= i < |commands| ==> '\n' !in commands[i]
    ensures forall i :: 0 <= i < |Lines(baseImage, commands)| ==> '\n' !in Lines(baseImage, commands)[i]
  {
    var lines := Lines(baseImage, commands);
    var n := |commands|;
    forall i | 0 <= i < |lines|
      ensures '\n' !in lines[i]
    {
      if i < 3 {
        assert lines[i] == HeaderLines(baseImage)[i];
        assert '\n' !in "        FROM ";
      } else if i < 3 + n {
        assert lines[i] == "RUN " + commands[i - 3];
      } else {
        assert lines[i] in ["COPY . .", "CMD [\"app.lambda_handler\"]"];
      }
    }
  }

  /** With no newline in the base image or in a command, splitting the Dockerfile
      at newlines gives exactly `Lines`: k commands give k RUN lines, in order. */
  lemma AdvancedDockerfileLines(baseImage: string, commands: seq<string>)
    requires '\n' !in baseImage
    requires forall i :: 0 <= i < |commands| ==> '\n' !in commands[i]
    ensures Split(AdvancedDockerfile(baseImage, commands), '\n') == Lines(baseImage, commands)
  {
    var head := HeaderLines(baseImage);
    var runs := RunLines(commands);
    var copyLine, cmdLine := "COPY . .", "CMD [\"app.lambda_handler\"]";
    var lines := Lines(baseImage, commands);
    assert CopyStep == ['\n'] + copyLine;
    assert CmdStep == ['\n'] + cmdLine;
    assert lines == head + runs + [copyLine] + [cmdLine];
    HeadIsJoin(baseImage, commands);
    JoinSnoc(head + runs, copyLine, '\n');
    JoinSnoc(head + runs + [copyLine], cmdLine, '\n');
    calc {
      AdvancedDockerfile(baseImage, commands);
      (Header(baseImage) + RunSteps(commands)) + CopyStep + CmdStep;
      Join(head + runs, '\n') + (['\n'] + copyLine) + (['\n'] + cmdLine);
      (Join(head + runs, '\n') + ['\n'] + copyLine) + ['\n'] + cmdLine;
      Join(head + runs + [copyLine], '\n') + ['\n'] + cmdLine;
      Join(lines, '\n');
    }
    LinesHaveNoNewline(baseImage, commands);
    SplitJoin(lines, '\n');
  }
}
