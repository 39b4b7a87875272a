/**
 * The checkpoint file `last_video_id.txt`: one line "<video id>,\t<title>"
 * naming the last video whose summary was e-mailed. The file is modelled by
 * its contents, `None` while it does not exist.
 */
module Checkpoint {
  import opened Base
  import opened PyText

  /** The line `save_last_video_id` writes: the id, a comma, a tab, the title. */
  function FormatLine(id: string, title: string): string {
    id + [',', '\t'] + title
  }

  /** The saved line splits back at its first comma into the id and the
      tab-led title, whenever the id holds no comma. */
  lemma SavedLineSplits(id: string, title: string)
    requires ',' !in id
    ensures SplitOnce(FormatLine(id, title), ',') == [id, "\t" + title]
  {
    assert id + [',', '\t'] == id + [','] + ['\t'];
    Regroup(id + [','], ['\t'], title);
    SplitOnceAtFirst(id, ',', ['\t'] + title);
  }

  /** `load_last_video_id`: nothing when the file is missing or holds only
      whitespace; otherwise the stripped text before the first comma of the
      stripped contents (the whole stripped contents when there is no comma). */
  function Load(file: Option<string>): (r: Option<string>)
    ensures file.None? ==> r.None?
    ensures file.Some? ==> (r.None? <==> AllSpace(Translate(file.value)))
    ensures r.Some? ==> ',' !in r.value
    ensures r.Some? && r.value != [] ==> !IsSpace(r.value[0]) && !IsSpace(r.value[|r.value| - 1])
  {
    match file
    case None => None
    case Some(contents) =>
      var line := Strip(Translate(contents));
      if line == [] then None
      else Some(Strip(SplitOnce(line, ',')[0]))
  }

  /** The id field is the stripped text before the first comma; what follows
      that comma is never looked at. */
  lemma LoadBeforeFirstComma(contents: string, a: string, b: string)
    requires Translate(contents) == a + [','] + b
    requires ',' !in a
    ensures Load(Some(contents)) == Some(Strip(a))
  {
    var l := StripLeft(a);
    StripAround(a, ',', b);
    assert ',' !in l;
    SplitOnceAtFirst(l, ',', StripRight(b));
    StripAfterStripLeft(a);
  }

  /** Without a comma the id field is the whole stripped contents. */
  lemma LoadWithoutComma(contents: string)
    requires ',' !in Translate(contents)
    requires !AllSpace(Translate(contents))
    ensures Load(Some(contents)) == Some(Strip(Translate(contents)))
  {
    var t := Translate(contents);
    var line := Strip(t);
    assert ',' !in line;
    StripIdempotent(t);
  }

  /** Reading back a saved line: the newline translation acts on the id and
      the title separately, since the comma sits between them. */
  lemma TranslateSavedLine(id: string, title: string)
    ensures Translate(FormatLine(id, title)) == Translate(id) + [','] + (['\t'] + Translate(title))
  {
    var rest := ['\t'] + title;
    var tail := [','] + rest;
    assert FormatLine(id, title) == id + tail;
    TranslateAppend(id, tail);
    assert tail[0] == ',' && tail[1..] == rest;
    assert rest[0] == '\t' && rest[1..] == title;
  }

  /** Round trip: loading what was saved gives back the stripped id, whatever
      the title, provided the id holds no comma. The id comes back as the
      text-mode read sees it (a carriage return in it reads as "\n"). */
  lemma RoundTrip(id: string, title: string)
    requires ',' !in id
    ensures Load(Some(FormatLine(id, title))) == Some(Strip(Translate(id)))
  {
    TranslateSavedLine(id, title);
    TranslateKeepsComma(id);
    LoadBeforeFirstComma(FormatLine(id, title), Translate(id), ['\t'] + Translate(title));
  }

  /** Round trip for ids with neither a comma nor a carriage return: the
      stripped id comes back. */
  lemma RoundTripPlain(id: string, title: string)
    requires ',' !in id && '\r' !in id
    ensures Load(Some(FormatLine(id, title))) == Some(Strip(id))
  {
    RoundTrip(id, title);
    TranslateNoCarriageReturn(id);
  }

  /** A saved line loads as the stripped text before the first comma of the
      id followed by the comma the line adds; the title plays no part. */
  lemma LoadSavedLine(id: string, title: string)
    ensures Load(Some(FormatLine(id, title))) == Some(Strip(SplitOnce(Translate(id) + [','], ',')[0]))
  {
    var head := Translate(id) + [','];
    assert head[|head| - 1] == ',';
    var parts := SplitOnce(head, ',');
    var rest := ['\t'] + Translate(title);
    TranslateSavedLine(id, title);
    Regroup(parts[0] + [','], parts[1], rest);
    LoadBeforeFirstComma(FormatLine(id, title), parts[0], parts[1] + rest);
  }

  /** Whatever the id and the titles, a saved checkpoint loads as some id, and
      the title never changes which one. */
  lemma LoadIgnoresTitle(id: string, title1: string, title2: string)
    ensures Load(Some(FormatLine(id, title1))).Some?
    ensures Load(Some(FormatLine(id, title1))) == Load(Some(FormatLine(id, title2)))
  {
    LoadSavedLine(id, title1);
    LoadSavedLine(id, title2);
  }

  /** A carriage return inside an id does not survive the round trip: it reads
      back as a line feed. */
  lemma CarriageReturnInId(id: string, title: string)
    requires |id| == 3 && id[0] == 'a' && id[1] == '\r' && id[2] == 'b'
    ensures Load(Some(FormatLine(id, title))) == Some("a\nb")
  {
    var line := Translate(id);
    RoundTrip(id, title);
    ReadsAsLineFeed(id);
    StripSample(line);
    assert Load(Some(FormatLine(id, title))) == Some(line);
  }

  lemma ReadsAsLineFeed(id: string)
    requires |id| == 3 && id[0] == 'a' && id[1] == '\r' && id[2] == 'b'
    ensures Translate(id) == "a\nb"
  {
    assert Translate(id[2..]) == "b" by {
      assert id[2..] == "b" && id[2..][1..] == [];
    }
    assert id[1..][0] == '\r' && id[1..][1] == 'b' && id[1..][1..] == id[2..];
  }

  lemma StripSample(line: string)
    requires line == "a\nb"
    ensures Strip(line) == line
  {
    assert !IsSpace(line[0]) && !IsSpace(line[2]);
    StripLeftNoop(line);
  }
}
