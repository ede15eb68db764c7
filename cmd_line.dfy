/** The command line (src/widgets/cmd_line.rs): a text field that is either
    active or not, and whose submitted text becomes a command to run. */
module CmdLines {

  datatype Msg = TxtChange(s: string) | Submit | Quit

  datatype Action = NoAction | RunCmd(cmd: string)

  /** The command line's state (cmd_line.rs:6-10). */
  class CmdLine {
    var active: bool
    var text: string

    /** Default: inactive and empty. */
    constructor ()
      ensures !active && text == []
    {
      active := false;
      text := [];
    }

    /** update (cmd_line.rs:24-46): an edit replaces the text; submitting
        hands the text over as a command and leaves the line empty and
        inactive; quitting drops the text and deactivates. */
    method Update(msg: Msg) returns (act: Action)
      modifies this
      ensures msg.TxtChange? ==> text == msg.s && active == old(active) && act == NoAction
      ensures msg.Submit? ==> act == RunCmd(old(text)) && text == [] && !active
      ensures msg.Quit? ==> act == NoAction && text == [] && !active
    {
      match msg {
        case TxtChange(s) =>
          text := s;
          act := NoAction;
        case Submit =>
          var s := text;
          text := [];
          active := false;
          act := RunCmd(s);
        case Quit =>
          text := [];
          active := false;
          act := NoAction;
      }
    }
  }

  /** Whatever was typed last is the command that submitting runs, and the
      line is left empty and inactive. */
  method TypeThenSubmit(line: CmdLine, s: string) returns (act: Action)
    modifies line
    ensures act == RunCmd(s)
    ensures line.text == [] && !line.active
  {
    var ignored := line.Update(TxtChange(s));
    act := line.Update(Submit);
  }

  /** Quitting after typing runs nothing and forgets the text: a later
      submit runs the empty command. */
  method TypeQuitSubmit(s: string) returns (act: Action)
    ensures act == RunCmd([])
  {
    var line := new CmdLine();
    var a1 := line.Update(TxtChange(s));
    var a2 := line.Update(Quit);
    act := line.Update(Submit);
  }
}
