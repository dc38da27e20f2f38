/** run.py: reading a file that holds several JSON texts one after the other.  The file
    is ASCII, opened as text: reading translates line ends, seeking counts bytes. */
module StreamJson {
  import opened JsonText
  import opened JsonReader

  // ---- the file ----

  /** What is read from the bytes of a text file: every line end becomes one newline. */
  function Translated(file: string): (t: string)
    ensures |t| <= |file|
  {
    if file == [] then []
    else if file[0] != '\r' then [file[0]] + Translated(file[1..])
    else if |file| > 1 && file[1] == '\n' then ['\n'] + Translated(file[2..])
    else ['\n'] + Translated(file[1..])
  }

  /** What is read from a byte position on. */
  function From(file: string, start: nat): string
    requires start <= |file|
  {
    Translated(file[start..])
  }

  // ---- the json library ----

  datatype Load = Loaded(value: Doc) | ExtraData(at: nat) | Invalid

  /** `json.load` and `json.loads`: one value with white space around it; otherwise the
      place of what follows it, or another error. */
  function LoadText(s: string): (r: Load)
    ensures r.ExtraData? ==> 0 < r.at < |s|
  {
    var one := ReadValue(Trimmed(s));
    if one.None? then Invalid
    else
      var rest := Trimmed(one.value.1);
      if rest == "" then Loaded(Bare(one.value.0)) else ExtraData(|s| - |rest|)
  }

  // ---- the generator ----

  /** The values that are yielded from a state on, and whether the end is reached: the
      position that is kept, and the text that the next json.load gets.  A position
      beyond the end of the file leaves nothing to load, which raises. */
  function Reading(file: string, start: nat, pending: string): (seq<Doc>, bool)
    requires start <= |file|
    decreases |file| - start
  {
    match LoadText(pending)
    case Loaded(v) => ([v], true)
    case Invalid => ([], false)
    case ExtraData(at) =>
      var text := From(file, start);
      var n := if at <= |text| then at else |text|;
      match LoadText(text[..n])
      case Loaded(v) =>
        var rest := if start + at <= |file| then Reading(file, start + at, text[n..]) else ([], false);
        ([v] + rest.0, rest.1)
      case _ => ([], false)
  }

  /** `stream_read_json`: the values it yields, and whether it comes to the end of the
      file rather than raising. */
  method StreamReadJson(file: string) returns (values: seq<Doc>, ok: bool)
    ensures (values, ok) == Reading(file, 0, Translated(file))
  {
    hide LoadText, Translated;
    values := [];
    var startPos := 0;
    assert file[0..] == file;
    var pending := From(file, 0);
    var all := Reading(file, 0, pending);
    assert [] + all.0 == all.0;
    while true
      invariant startPos <= |file|
      invariant all == (values + Reading(file, startPos, pending).0, Reading(file, startPos, pending).1)
      decreases |file| - startPos
    {
      match LoadText(pending) {
        case Loaded(v) =>
          return values + [v], true;
        case Invalid =>
          assert values + [] == values;
          return values, false;
        case ExtraData(endPos) =>
          var text := From(file, startPos);
          var n := if endPos <= |text| then endPos else |text|;
          var again := LoadText(text[..n]);
          if !again.Loaded? {
            assert values + [] == values;
            return values, false;
          }
          Regrouped(values, again.value, if startPos + endPos <= |file| then
                                           Reading(file, startPos + endPos, text[n..]).0 else []);
          values := values + [again.value];
          startPos := startPos + endPos;
          pending := text[n..];
          if startPos > |file| {
            return values, false;
          }
      }
    }
  }

  lemma Regrouped(a: seq<Doc>, v: Doc, b: seq<Doc>)
    ensures a + ([v] + b) == (a + [v]) + b
    ensures b == [] ==> a + ([v] + b) == a + [v]
  {
  }
}
