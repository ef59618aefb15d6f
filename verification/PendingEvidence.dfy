/** Saving and loading a pending report: a text file and a sidecar with the report's hash.

Files are written and read in text mode.  A hash stands for its text. */
module PendingEvidence {
  import opened Protocol

  datatype Platform = Posix | Windows

  /** Text-mode writing: `\n` becomes the platform's line separator. */
  function Encode(text: string, p: Platform): string {
    if text == "" then ""
    else (if text[0] == '\n' && p == Windows then "\r\n" else [text[0]]) + Encode(text[1..], p)
  }

  /** Text-mode reading with universal newlines: `\r\n` and `\r` become `\n`. */
  function Decode(content: string): (text: string)
    ensures '\r' !in text
    decreases |content|
  {
    if content == "" then ""
    else if content[0] == '\r' then
      "\n" + (if |content| >= 2 && content[1] == '\n' then Decode(content[2..]) else Decode(content[1..]))
    else [content[0]] + Decode(content[1..])
  }

  lemma {:induction false} DecodeEncode(text: string, p: Platform)
    requires '\r' !in text
    ensures Decode(Encode(text, p)) == text
    decreases |text|
  {
    if text != "" {
      DecodeEncode(text[1..], p);
      var rest := Encode(text[1..], p);
      if text[0] == '\n' && p == Windows {
        assert Encode(text, p)[2..] == rest;
      } else {
        assert Encode(text, p)[1..] == rest;
      }
      assert text == [text[0]] + text[1..];
    }
  }

  /** Reading back what was written gives the report again exactly if it has no carriage
      return: neither platform preserves one. */
  lemma ReadsBackIff(text: string, p: Platform)
    ensures Decode(Encode(text, p)) == text <==> '\r' !in text
  {
    if '\r' !in text {
      DecodeEncode(text, p);
    }
  }

  datatype Fate = Lands | Dies(written: bool)

  class PendingFiles {
    const platform: Platform
    var pending: Option<string>
    var sidecarHash: Option<string>

    constructor (p: Platform)
      ensures platform == p && pending == None && sidecarHash == None
    {
      platform, pending, sidecarHash := p, None, None;
    }

    /** The report that loading returns, None where the integrity check or a read fails. */
    function Loaded(): Option<string>
      reads this
    {
      if pending.Some? && sidecarHash.Some? && Decode(pending.value) == sidecarHash.value
      then Some(Decode(pending.value)) else None
    }

    /** `save_worker_pending_report`: the report, then the sidecar; the process may die at either. */
    method Save(report: string, first: Fate, second: Fate) returns (saved: bool)
      modifies this
      ensures saved <==> first == Lands && second == Lands
      ensures saved ==> Loaded() == (if '\r' in report then None else Some(report))
      // a save cut short leaves nothing to load, this report, or what the old sidecar promised
      ensures Loaded() == None || Loaded() == Some(report) || Loaded() == old(sidecarHash)
      ensures Loaded() == Some(report) && !saved ==> old(sidecarHash) == Some(report) || second == Dies(true)
    {
      ReadsBackIff(report, platform);
      if first == Lands || (first.Dies? && first.written) {
        pending := Some(Encode(report, platform));
      }
      if first != Lands { return false; }
      if second == Lands || (second.Dies? && second.written) {
        sidecarHash := Some(report);
      }
      return second == Lands;
    }

    /** `load_evidence`: whatever it returns is what the sidecar promises. */
    method Load() returns (report: Option<string>)
      ensures report == Loaded()
      ensures report.Some? ==> report == sidecarHash && '\r' !in report.value
    {
      if pending.None? || sidecarHash.None? { return None; }
      var text := Decode(pending.value);
      if text != sidecarHash.value { return None; }
      return Some(text);
    }
  }
}
