/** The `ADD_FILTER_*` macros of the Qt4 dialogs provider, which append one
    entry to a file-chooser filter string held in the caller's variable.

    Each macro takes the variable by name and grows it with four (or two)
    `+=` steps; here each becomes a method that takes the variable's value
    and returns its new value. The translation function `_()` and the
    `EXTENSIONS_*` pattern lists are defined outside the header, so they are
    parameters: `translate` and `extensions`.

    `Split` is a reference reader that assumes the consumer of such a string
    separates filters by ";;" and by nothing else (a real file chooser may
    also split on newlines, or return no filter for an empty string).
    `Terminated` is the string a list of complete entries forms; under that
    assumption the lemmas below show that the entries the macros append are
    read back as exactly the entries written. */
module FilterText {
  import opened FilterFlags

  /** The untranslated caption each category's macro hands to `_()`. Each
      ends with " Files" and holds no ';', so an untranslated caption never
      splits an entry. */
  function LabelId(c: Category): (id: string)
    ensures |id| >= 6 && id[|id| - 6..] == " Files"
    ensures ';' !in id
  {
    match c
    case Media => "Media Files"
    case Video => "Video Files"
    case Audio => "Audio Files"
    case Playlist => "Playlist Files"
    case Subtitle => "Subtitles Files"
  }

  /** The untranslated caption of the catch-all entry. */
  const AllFilesId: string := "All Files"

  /** The six captions are pairwise distinct: no two categories, and no
      category and the catch-all, share a caption. */
  lemma CaptionsDistinct(c: Category, d: Category)
    ensures LabelId(c) == LabelId(d) <==> c == d
    ensures LabelId(c) != AllFilesId
  {
  }

  /** What ends every category entry, and separates it from the next. */
  const Separator: string := ";;"

  /** The catch-all entry's pattern part. */
  const AllPatterns: string := " (*.*)"

  /** One filter as the reference reader sees it: a caption and a parenthesised pattern list. */
  function Piece(caption: string, patterns: string): string {
    caption + " ( " + patterns + ")"
  }

  /** The catch-all filter with the given caption. */
  function AllPiece(caption: string): string {
    caption + AllPatterns
  }

  /** `s` contains no ";;". */
  predicate NoSeparator(s: string) {
    forall i :: 0 <= i < |s| - 1 ==> !(s[i] == ';' && s[i + 1] == ';')
  }

  /** A filter that can be followed by ";;" without the chooser splitting it
      elsewhere: it holds no ";;" and does not end with ';'. */
  predicate Clean(p: string) {
    NoSeparator(p) && (|p| == 0 || p[|p| - 1] != ';')
  }

  /** The reference reading of a filter string: the pieces between ";;" separators. */
  function Split(s: string): (pieces: seq<string>)
    ensures |pieces| >= 1
    decreases |s|
  {
    if |s| == 0 then [""]
    else if |s| >= 2 && s[0] == ';' && s[1] == ';' then [""] + Split(s[2..])
    else
      var rest := Split(s[1..]);
      [[s[0]] + rest[0]] + rest[1..]
  }

  /** The string a list of complete entries forms: each piece followed by ";;". */
  function Terminated(pieces: seq<string>): string {
    if pieces == [] then "" else pieces[0] + Separator + Terminated(pieces[1..])
  }

  /** Appending one more terminated piece extends the list by that piece. */
  lemma {:induction false} TerminatedSnoc(pieces: seq<string>, p: string)
    ensures Terminated(pieces + [p]) == Terminated(pieces) + p + Separator
  {
    if pieces == [] {
      assert pieces + [p] == [p];
    } else {
      assert (pieces + [p])[1..] == pieces[1..] + [p];
      TerminatedSnoc(pieces[1..], p);
    }
  }

  /** A category entry built from labels and pattern lists without ";;" is clean. */
  lemma PieceClean(caption: string, patterns: string)
    requires NoSeparator(caption) && NoSeparator(patterns)
    ensures Clean(Piece(caption, patterns))
  {
  }

  /** The catch-all entry holds no ";;" when its caption holds none. */
  lemma AllPieceNoSeparator(caption: string)
    requires NoSeparator(caption)
    ensures NoSeparator(AllPiece(caption))
  {
  }

  /** Untranslated, every category entry is clean and the catch-all entry
      holds no ";;", so with the identity translation the read-back lemmas
      need nothing of the captions: only the pattern lists must avoid ";;". */
  lemma UntranslatedEntriesClean(c: Category, patterns: string)
    requires NoSeparator(patterns)
    ensures Clean(Piece(LabelId(c), patterns))
    ensures NoSeparator(AllPiece(AllFilesId))
  {
  }

  /** A clean piece followed by ";;" is read as that piece, then the rest. */
  lemma {:induction false} SplitAfterPiece(p: string, rest: string)
    requires Clean(p)
    ensures Split(p + Separator + rest) == [p] + Split(rest)
  {
    var s := p + Separator + rest;
    if p == [] {
      assert s[2..] == rest;
    } else {
      assert s[0] == p[0];
      assert |p| >= 2 ==> s[1] == p[1];
      assert s[1..] == p[1..] + Separator + rest;
      SplitAfterPiece(p[1..], rest);
      assert [p[0]] + p[1..] == p;
    }
  }

  /** A string without ";;" is read as a single piece. */
  lemma {:induction false} SplitWhole(p: string)
    requires NoSeparator(p)
    ensures Split(p) == [p]
  {
    if p != [] {
      assert |p| >= 2 ==> !(p[0] == ';' && p[1] == ';');
      SplitWhole(p[1..]);
      assert [p[0]] + p[1..] == p;
    }
  }

  /** Reading back: complete entries followed by a last piece without ";;"
      are read as exactly those entries, then the last piece. */
  lemma {:induction false} SplitTerminated(pieces: seq<string>, last: string)
    requires forall i :: 0 <= i < |pieces| ==> Clean(pieces[i])
    requires NoSeparator(last)
    ensures Split(Terminated(pieces) + last) == pieces + [last]
  {
    if pieces == [] {
      assert Terminated(pieces) + last == last;
      SplitWhole(last);
    } else {
      calc {
        Split(Terminated(pieces) + last);
        { assert Terminated(pieces) + last == pieces[0] + Separator + (Terminated(pieces[1..]) + last); }
        Split(pieces[0] + Separator + (Terminated(pieces[1..]) + last));
        { SplitAfterPiece(pieces[0], Terminated(pieces[1..]) + last); }
        [pieces[0]] + Split(Terminated(pieces[1..]) + last);
        { SplitTerminated(pieces[1..], last); }
        [pieces[0]] + (pieces[1..] + [last]);
        { assert [pieces[0]] + pieces[1..] == pieces; }
        pieces + [last];
      }
    }
  }

  /** `ADD_FILTER_MEDIA` ... `ADD_FILTER_SUBTITLE`: append the category's
      translated caption, " ( ", its pattern list and ");;". */
  method AddFilter(s: string, c: Category, translate: string -> string, extensions: Category -> string)
    returns (t: string)
    ensures |t| == |s| + |translate(LabelId(c))| + |extensions(c)| + 6
    ensures t[..|s|] == s
    ensures t[|s|..] == Piece(translate(LabelId(c)), extensions(c)) + Separator
    ensures forall pieces {:trigger Terminated(pieces)} :: s == Terminated(pieces) ==>
              t == Terminated(pieces + [Piece(translate(LabelId(c)), extensions(c))])
  {
    t := s;
    t := t + translate(LabelId(c));
    t := t + " ( ";
    t := t + extensions(c);
    t := t + ");;";
    assert t == s + Piece(translate(LabelId(c)), extensions(c)) + Separator;
    forall pieces | s == Terminated(pieces)
      ensures t == Terminated(pieces + [Piece(translate(LabelId(c)), extensions(c))])
    {
      TerminatedSnoc(pieces, Piece(translate(LabelId(c)), extensions(c)));
    }
  }

  /** `ADD_FILTER_ALL`: append the translated "All Files" caption and " (*.*)",
      with no separator after it. Appended to complete entries, it is read back
      as one last filter after them. */
  method AddFilterAll(s: string, translate: string -> string) returns (t: string)
    ensures |t| == |s| + |translate(AllFilesId)| + |AllPatterns|
    ensures t[..|s|] == s
    ensures t[|s|..] == AllPiece(translate(AllFilesId))
    ensures t[|t| - |AllPatterns|..] == AllPatterns
    ensures forall pieces {:trigger Terminated(pieces)} ::
              s == Terminated(pieces) &&
              (forall i :: 0 <= i < |pieces| ==> Clean(pieces[i])) &&
              NoSeparator(translate(AllFilesId))
              ==> Split(t) == pieces + [AllPiece(translate(AllFilesId))]
  {
    t := s;
    t := t + translate(AllFilesId);
    t := t + " (*.*)";
    assert t == s + AllPiece(translate(AllFilesId));
    forall pieces | s == Terminated(pieces) &&
                    (forall i :: 0 <= i < |pieces| ==> Clean(pieces[i])) &&
                    NoSeparator(translate(AllFilesId))
      ensures Split(t) == pieces + [AllPiece(translate(AllFilesId))]
    {
      AllPieceNoSeparator(translate(AllFilesId));
      SplitTerminated(pieces, AllPiece(translate(AllFilesId)));
    }
  }
}
