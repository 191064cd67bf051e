/**
 * The launcher scripts of lib/tara/shim.rb: a heredoc with the command
 * interpolated into its last line, passed through `gsub(/^\s+/, '')`, which
 * deletes every run of whitespace that begins at the start of a line.
 * `ExecShim` runs a file of the package, `GemShim` a gem's executable.
 */
module Shim {
  import opened Text
  import opened Hosts

  /** A shim is nothing but the command its last line execs. */
  datatype Shim = Shim(command: string)

  /** `ExecShim.new(dirpath, name)`: runs `<dirpath>/<name>` beside the script, forwarding every argument. */
  function ExecShim(dirpath: string, name: string): Shim {
    Shim("\"$SELF_DIR/" + dirpath + "/" + name + "\" \"$@\"")
  }

  /** `GemShim.new(gem_name, exec_name)`: loads the gem's executable, forwarding every argument. */
  function GemShim(gemName: string, execName: string): Shim {
    Shim("-e \"load Gem.bin_path('" + gemName + "', '" + execName + "')\" -- \"$@\"")
  }

  /** The indentation of the heredoc's lines in the Ruby source (`<<-` keeps it). */
  const Indent: string := "        "

  function IndentLine(line: string): string {
    Indent + line + "\n"
  }

  const Shebang: string := "#!/bin/bash"
  const SetE: string := "set -e"
  const SelfDir: string := "SELF_DIR=$(dirname \"$0\")"
  const ExportGemfile: string := "export BUNDLE_GEMFILE=" + "\"$SELF_DIR/lib/vendor/Gemfile\""
  const UnsetIgnoreConfig: string := "unset BUNDLE_IGNORE_CONFIG"
  const ExecRuby: string := "exec \"$SELF_DIR/lib/ruby/bin/ruby\"" + " -rbundler/setup "

  /** The five lines every launcher starts with. */
  const Header: seq<string> := [Shebang, SetE, SelfDir, ExportGemfile, UnsetIgnoreConfig]

  /** Lines as the heredoc holds them: each indented and ended by a line break. */
  function IndentAll(lines: seq<string>): string
    decreases |lines|
  {
    if |lines| == 0 then "" else IndentLine(lines[0]) + IndentAll(lines[1..])
  }

  /** The heredoc before `gsub`: the header and the exec line, indented. */
  function Heredoc(command: string): string {
    IndentAll(Header + [ExecRuby + command])
  }

  /**
   * `gsub(/^\s+/, '')` on the rest of a string; `atLineStart` says whether the
   * scan stands at the start of a line or inside a whitespace run that began
   * there (the match is greedy, so such a run swallows line breaks too).
   */
  function StripFrom(s: string, atLineStart: bool): string
    decreases |s|
  {
    if |s| == 0 then ""
    else if atLineStart && IsSpace(s[0]) then StripFrom(s[1..], true)
    else [s[0]] + StripFrom(s[1..], s[0] == '\n')
  }

  function StripLeadingWhitespace(s: string): string {
    StripFrom(s, true)
  }

  /** `script_template` */
  function Render(shim: Shim): string {
    StripLeadingWhitespace(Heredoc(shim.command))
  }

  /** `write(io)`: one `puts` of the rendered script. */
  method Write(shim: Shim, io: Stream)
    modifies io
    ensures io.written == old(io.written) + Render(shim)
  {
    RenderEndsWithNewline(shim);
    io.Puts(Render(shim));
  }

  /** The lines of a launcher whose command is a single line. */
  function Lines(command: string): seq<string> {
    Header + [ExecRuby + command]
  }

  /** Each line followed by its line break. */
  function Unlines(lines: seq<string>): string
    decreases |lines|
  {
    if |lines| == 0 then "" else lines[0] + "\n" + Unlines(lines[1..])
  }

  /** A line is at the start of a line: no whitespace before it, and no break inside it. */
  predicate PlainLine(line: string) {
    |line| > 0 && !IsSpace(line[0]) && '\n' !in line
  }

  /** Outside a leading run, text without a line break is copied as it is, and the break ends the line. */
  lemma {:induction false} CopyLine(t: string, rest: string)
    requires '\n' !in t
    ensures StripFrom(t + "\n" + rest, false) == t + "\n" + StripFrom(rest, true)
    decreases |t|
  {
    if |t| == 0 {
      assert t + "\n" + rest == ['\n'] + rest;
    } else {
      assert (t + "\n" + rest)[1..] == t[1..] + "\n" + rest;
      CopyLine(t[1..], rest);
      assert t == [t[0]] + t[1..];
    }
  }

  lemma {:induction false} SkipRun(ws: string, rest: string)
    requires forall i :: 0 <= i < |ws| ==> IsSpace(ws[i])
    ensures StripFrom(ws + rest, true) == StripFrom(rest, true)
    decreases |ws|
  {
    if |ws| > 0 {
      assert (ws + rest)[0] == ws[0] && IsSpace(ws[0]);
      assert (ws + rest)[1..] == ws[1..] + rest;
      SkipRun(ws[1..], rest);
    } else {
      assert ws + rest == rest;
    }
  }

  lemma IndentBlank()
    ensures forall i :: 0 <= i < |Indent| ==> IsSpace(Indent[i])
  {
  }

  /** An indented line that starts with plain text loses exactly its indentation. */
  lemma StripIndentedStart(p: string, t: string, rest: string)
    requires PlainLine(p)
    ensures StripFrom(IndentLine(p + t) + rest, true) == p + StripFrom(t + "\n" + rest, false)
  {
    var u := t + "\n" + rest;
    var w := [p[0]] + (p[1..] + u);
    assert IndentLine(p + t) + rest == Indent + w;
    assert StripFrom(Indent + w, true) == StripFrom(w, true) by {
      IndentBlank();
      SkipRun(Indent, w);
    }
    PlainStart(p, u);
  }

  /** Plain text at the start of a line is copied as it is. */
  lemma PlainStart(p: string, u: string)
    requires PlainLine(p)
    ensures StripFrom([p[0]] + (p[1..] + u), true) == p + StripFrom(u, false)
  {
    var w := p[1..] + u;
    var x := StripFrom(u, false);
    assert StripFrom([p[0]] + w, true) == [p[0]] + StripFrom(w, false) by {
      assert ([p[0]] + w)[1..] == w;
      assert p[0] != '\n';
    }
    assert StripFrom(w, false) == p[1..] + x by {
      CopyPlain(p[1..], u);
    }
    assert [p[0]] + (p[1..] + x) == p + x;
  }

  /** An indented line loses exactly its indentation. */
  lemma StripIndentedLine(line: string, rest: string)
    requires PlainLine(line)
    ensures StripFrom(IndentLine(line) + rest, true) == line + "\n" + StripFrom(rest, true)
  {
    StripIndentedStart(line, "", rest);
    assert line + "" == line;
    CopyLine("", rest);
    assert "" + "\n" + rest == "\n" + rest;
  }

  /** Indented plain lines lose exactly their indentation. */
  lemma {:induction false} StripIndentedLines(lines: seq<string>, rest: string)
    requires forall i :: 0 <= i < |lines| ==> PlainLine(lines[i])
    ensures StripFrom(IndentAll(lines) + rest, true) == Unlines(lines) + StripFrom(rest, true)
    decreases |lines|
  {
    if |lines| == 0 {
      assert IndentAll(lines) + rest == rest;
    } else {
      StripIndentedLines(lines[1..], rest);
      StripIndentedLine(lines[0], IndentAll(lines[1..]) + rest);
      assert IndentAll(lines) + rest == IndentLine(lines[0]) + (IndentAll(lines[1..]) + rest);
    }
  }

  lemma HeaderPlain()
    ensures forall i :: 0 <= i < |Header| ==> PlainLine(Header[i])
  {
    FirstLinesPlain();
    BundlerLinesPlain();
  }

  lemma FirstLinesPlain()
    ensures PlainLine(Shebang) && PlainLine(SetE) && PlainLine(SelfDir)
  {
  }

  lemma BundlerLinesPlain()
    ensures PlainLine(ExportGemfile) && PlainLine(UnsetIgnoreConfig)
  {
    NoBreakIn("export BUNDLE_GEMFILE=", "\"$SELF_DIR/lib/vendor/Gemfile\"");
  }

  /**
   * The rendered script: the five header lines, then the exec line whose
   * command has lost the whitespace at the start of each of its own lines.
   */
  lemma RenderShape(shim: Shim)
    ensures Render(shim) == Unlines(Header) + ExecRuby + StripFrom(shim.command + "\n", false)
  {
    var c := shim.command;
    var last := IndentLine(ExecRuby + c);
    HeaderPlain();
    IndentAllAppend(Header, [ExecRuby + c]);
    assert IndentAll([ExecRuby + c]) == last;
    StripIndentedLines(Header, last);
    ExecRubyPlain();
    StripIndentedStart(ExecRuby, c, "");
    assert last + "" == last && c + "\n" + "" == c + "\n";
  }

  lemma ExecRubyPlain()
    ensures PlainLine(ExecRuby)
  {
    ExecRubyNoBreak();
  }

  lemma ExecRubyNoBreak()
    ensures '\n' !in ExecRuby
  {
    RunRubyNoBreak();
    SetupNoBreak();
    NoBreakIn("exec \"$SELF_DIR/lib/ruby/bin/ruby\"", " -rbundler/setup ");
  }

  lemma RunRubyNoBreak()
    ensures '\n' !in "exec \"$SELF_DIR/lib/ruby/bin/ruby\""
  {
  }

  lemma SetupNoBreak()
    ensures '\n' !in " -rbundler/setup "
  {
  }

  lemma {:induction false} IndentAllAppend(a: seq<string>, b: seq<string>)
    ensures IndentAll(a + b) == IndentAll(a) + IndentAll(b)
    decreases |a|
  {
    if |a| > 0 {
      assert (a + b)[1..] == a[1..] + b;
      IndentAllAppend(a[1..], b);
    } else {
      assert a + b == b;
    }
  }

  /** Outside a leading run, text without a line break is copied as it is. */
  lemma {:induction false} CopyPlain(t: string, rest: string)
    requires '\n' !in t
    ensures StripFrom(t + rest, false) == t + StripFrom(rest, false)
    decreases |t|
  {
    if |t| > 0 {
      assert (t + rest)[0] == t[0] && t[0] != '\n';
      assert (t + rest)[1..] == t[1..] + rest;
      CopyPlain(t[1..], rest);
      assert t == [t[0]] + t[1..];
    } else {
      assert t + rest == rest;
    }
  }

  /** A command on one line is kept exactly: the script is the six lines, each ended by a line break. */
  lemma RenderLines(shim: Shim)
    requires '\n' !in shim.command
    ensures Render(shim) == Unlines(Lines(shim.command))
  {
    var c := shim.command;
    var last := ExecRuby + c + "\n";
    assert Render(shim) == Unlines(Header) + last by {
      RenderShape(shim);
      CopyLine(c, "");
      assert c + "\n" + "" == c + "\n";
      assert StripFrom("", true) == "";
    }
    assert Unlines(Lines(c)) == Unlines(Header) + last by {
      UnlinesAppend(Header, [ExecRuby + c]);
      assert Unlines([ExecRuby + c]) == last;
    }
  }

  lemma {:induction false} UnlinesAppend(a: seq<string>, b: seq<string>)
    ensures Unlines(a + b) == Unlines(a) + Unlines(b)
    decreases |a|
  {
    if |a| > 0 {
      assert (a + b)[1..] == a[1..] + b;
      UnlinesAppend(a[1..], b);
    } else {
      assert a + b == b;
    }
  }

  /**
   * No line of `r` starts with whitespace: neither its first character (when
   * `r` itself starts a line) nor any character after a line break.
   */
  predicate NoLeadingWhitespace(r: string, atLineStart: bool) {
    forall i {:trigger r[i]} :: 0 <= i < |r| && ((i == 0 && atLineStart) || (i > 0 && r[i - 1] == '\n')) ==> !IsSpace(r[i])
  }

  lemma {:induction false} StripLeavesNoIndent(s: string, atLineStart: bool)
    ensures NoLeadingWhitespace(StripFrom(s, atLineStart), atLineStart)
    decreases |s|
  {
    if |s| > 0 {
      if atLineStart && IsSpace(s[0]) {
        StripLeavesNoIndent(s[1..], true);
      } else {
        var tail := StripFrom(s[1..], s[0] == '\n');
        StripLeavesNoIndent(s[1..], s[0] == '\n');
        var r := [s[0]] + tail;
        assert r == StripFrom(s, atLineStart);
        forall i | 0 <= i < |r| && ((i == 0 && atLineStart) || (i > 0 && r[i - 1] == '\n'))
          ensures !IsSpace(r[i])
        {
          if i == 0 {
            assert r[0] == s[0];
          } else {
            assert r[i] == tail[i - 1] && r[i - 1] == if i == 1 then s[0] else tail[i - 2];
          }
        }
      }
    }
  }

  lemma RenderNoIndent(shim: Shim)
    ensures NoLeadingWhitespace(Render(shim), true)
  {
    StripLeavesNoIndent(Heredoc(shim.command), true);
  }

  /** Text ending in a line break keeps a final line break unless all of it is swallowed by a leading run. */
  lemma {:induction false} StripKeepsFinalBreak(t: string, atLineStart: bool)
    ensures var r := StripFrom(t + "\n", atLineStart);
      (r == "" || r[|r| - 1] == '\n') && (!atLineStart ==> r != "")
    decreases |t|
  {
    if |t| > 0 {
      assert (t + "\n")[1..] == t[1..] + "\n";
      StripKeepsFinalBreak(t[1..], if atLineStart && IsSpace(t[0]) then true else t[0] == '\n');
    }
  }

  /** The script ends in a line break, so `puts` adds none. */
  lemma RenderEndsWithNewline(shim: Shim)
    ensures EndsWith(Render(shim), "\n")
    ensures PutsText(Render(shim)) == Render(shim)
  {
    RenderShape(shim);
    StripKeepsFinalBreak(shim.command, false);
  }

  lemma {:induction false} UnlinesJoin(lines: seq<string>)
    ensures Unlines(lines) == JoinWith(lines + [""], "\n")
    decreases |lines|
  {
    if |lines| > 0 {
      UnlinesJoin(lines[1..]);
      assert (lines + [""])[1..] == lines[1..] + [""];
    }
  }

  /** Split at its line breaks, a script with a one-line command is exactly six lines. */
  lemma RenderSixLines(shim: Shim)
    requires '\n' !in shim.command
    ensures |Lines(shim.command)| == 6
    ensures Split(Render(shim), '\n') == Lines(shim.command) + [""]
  {
    var lines := Lines(shim.command);
    RenderLines(shim);
    UnlinesJoin(lines);
    HeaderPlain();
    assert forall i :: 0 <= i < |lines + [""]| ==> '\n' !in (lines + [""])[i] by {
      assert '\n' !in ExecRuby;
    }
    SplitJoin(lines + [""], '\n');
  }

  /** The script of a one-line command ends by running exactly that command. */
  lemma RenderEndsWithCommand(shim: Shim)
    requires '\n' !in shim.command
    ensures EndsWith(Render(shim), ExecRuby + shim.command + "\n")
  {
    RenderLines(shim);
    UnlinesAppend(Header, [ExecRuby + shim.command]);
    assert Unlines([ExecRuby + shim.command]) == ExecRuby + shim.command + "\n";
  }

  lemma NoBreakIn(a: string, b: string)
    requires '\n' !in a && '\n' !in b
    ensures '\n' !in a + b
  {
  }

  /** `ExecShim` runs `<dirpath>/<name>` relative to the script's own directory and forwards every argument. */
  lemma ExecShimForwardsArguments(dirpath: string, name: string)
    requires '\n' !in dirpath && '\n' !in name
    ensures StartsWith(ExecShim(dirpath, name).command, "\"$SELF_DIR/" + dirpath + "/" + name + "\"")
    ensures EndsWith(ExecShim(dirpath, name).command, " \"$@\"")
    ensures EndsWith(Render(ExecShim(dirpath, name)), ExecRuby + ExecShim(dirpath, name).command + "\n")
  {
    var c := ExecShim(dirpath, name).command;
    NoBreakIn("\"$SELF_DIR/", dirpath);
    NoBreakIn("\"$SELF_DIR/" + dirpath, "/");
    NoBreakIn("\"$SELF_DIR/" + dirpath + "/", name);
    NoBreakIn("\"$SELF_DIR/" + dirpath + "/" + name, "\" \"$@\"");
    RenderEndsWithCommand(ExecShim(dirpath, name));
  }

  /** `GemShim` loads the named executable of the named gem and forwards every argument after `--`. */
  lemma GemShimForwardsArguments(gemName: string, execName: string)
    requires '\n' !in gemName && '\n' !in execName
    ensures StartsWith(GemShim(gemName, execName).command, "-e \"load Gem.bin_path('" + gemName + "', '" + execName + "')\"")
    ensures EndsWith(GemShim(gemName, execName).command, " -- \"$@\"")
    ensures EndsWith(Render(GemShim(gemName, execName)), ExecRuby + GemShim(gemName, execName).command + "\n")
  {
    var p := "-e \"load Gem.bin_path('";
    NoBreakIn(p, gemName);
    NoBreakIn(p + gemName, "', '");
    NoBreakIn(p + gemName + "', '", execName);
    NoBreakIn(p + gemName + "', '" + execName, "')\" -- \"$@\"");
    RenderEndsWithCommand(GemShim(gemName, execName));
  }
}
