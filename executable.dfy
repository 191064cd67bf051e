/**
 * The launcher of lib/tara/executable.rb: the same heredoc-and-`gsub` script
 * as a shim, written out once more with the package's `bin/<name>` as the
 * program to run.
 */
module Executable {
  import opened Text
  import opened Hosts
  import opened Shim

  /** The heredoc of `script(name)` before `gsub`. */
  function ScriptHeredoc(name: string): string {
    IndentAll(ScriptLinesOf(name))
  }

  function ScriptLinesOf(name: string): seq<string> {
    [ "#!/bin/bash",
      "set -e",
      "SELF_DIR=$(dirname \"$0\")",
      "export BUNDLE_GEMFILE=" + "\"$SELF_DIR/lib/vendor/Gemfile\"",
      "unset BUNDLE_IGNORE_CONFIG",
      "exec \"$SELF_DIR/lib/ruby/bin/ruby\"" + " -rbundler/setup " + "\"$SELF_DIR/bin/" + name + "\" \"$@\"" ]
  }

  /** `script(name)` */
  function Script(name: string): string {
    StripLeadingWhitespace(ScriptHeredoc(name))
  }

  /** `Executable.new(name).write(io)`: one `puts` of the script. */
  method Write(name: string, io: Stream)
    modifies io
    ensures io.written == old(io.written) + Script(name)
  {
    SameAsExecShim(name);
    RenderEndsWithNewline(ExecShim("bin", name));
    io.Puts(Script(name));
  }

  /** The launcher of `bin/<name>` is, character for character, the shim `ExecShim("bin", name)`. */
  lemma SameAsExecShim(name: string)
    ensures Script(name) == Render(ExecShim("bin", name))
  {
    var cmd := ExecShim("bin", name).command;
    assert "\"$SELF_DIR/" + "bin" + "/" == "\"$SELF_DIR/bin/";
    assert cmd == "\"$SELF_DIR/bin/" + name + "\" \"$@\"";
    assert ExecRuby + cmd == "exec \"$SELF_DIR/lib/ruby/bin/ruby\"" + " -rbundler/setup " + "\"$SELF_DIR/bin/" + name + "\" \"$@\"";
    var lines := ScriptLinesOf(name);
    assert lines[..5] == Header;
    assert lines == Header + [ExecRuby + cmd];
  }

  /**
   * For a name without a line break the script is six lines: the shim's
   * five header lines, then the exec of `bin/<name>` with every argument
   * forwarded. No line starts with whitespace.
   */
  lemma ScriptLines(name: string)
    requires '\n' !in name
    ensures Split(Script(name), '\n') == Header + [ExecRuby + "\"$SELF_DIR/bin/" + name + "\" \"$@\"", ""]
    ensures NoLeadingWhitespace(Script(name), true)
  {
    var shim := ExecShim("bin", name);
    SameAsExecShim(name);
    assert shim.command == "\"$SELF_DIR/bin/" + name + "\" \"$@\"";
    NoBreakIn("\"$SELF_DIR/bin/", name);
    NoBreakIn("\"$SELF_DIR/bin/" + name, "\" \"$@\"");
    RenderSixLines(shim);
    assert ExecRuby + shim.command == ExecRuby + "\"$SELF_DIR/bin/" + name + "\" \"$@\"";
    assert Lines(shim.command) + [""] == Header + [ExecRuby + "\"$SELF_DIR/bin/" + name + "\" \"$@\"", ""];
    RenderNoIndent(shim);
  }
}
