/** The request-target analysis of `run`: JavaScript's `String.prototype.split`
    with a one-character separator, its inverse `join`, and the stream path and
    format the session takes from a pathname (`pathname.split('.')[0]` and
    `pathname.split('.')[1]`). */
module UrlPath {

  import opened Wrappers

  /** `s.split([sep])`: the maximal separator-free pieces of `s`, in order;
      there is always at least one (the empty string splits to [""]). */
  function Split(s: string, sep: char): (parts: seq<string>)
    ensures |parts| >= 1
    ensures forall i :: 0 <= i < |parts| ==> sep !in parts[i]
  {
    if s == [] then [""]
    else
      var rest := Split(s[1..], sep);
      if s[0] == sep then [""] + rest
      else [[s[0]] + rest[0]] + rest[1..]
  }

  /** `parts.join([sep])`. */
  function Join(parts: seq<string>, sep: char): (s: string)
    requires |parts| >= 1
  {
    if |parts| == 1 then parts[0] else parts[0] + [sep] + Join(parts[1..], sep)
  }

  /** Joining the pieces with the separator gives the original string back. */
  lemma {:induction false} JoinSplit(s: string, sep: char)
    ensures Join(Split(s, sep), sep) == s
  {
    if s != [] {
      var rest := Split(s[1..], sep);
      JoinSplit(s[1..], sep);
      if s[0] != sep {
        var parts := Split(s, sep);
        assert parts[1..] == rest[1..];
        if |rest| == 1 {
          assert Join(parts, sep) == [s[0]] + rest[0];
        } else {
          assert Join(rest, sep) == rest[0] + [sep] + Join(rest[1..], sep);
        }
      }
    }
  }

  /** Splitting a join of separator-free pieces gives the pieces back. */
  lemma {:induction false} SplitJoin(parts: seq<string>, sep: char)
    requires |parts| >= 1
    requires forall i :: 0 <= i < |parts| ==> sep !in parts[i]
    ensures Split(Join(parts, sep), sep) == parts
  {
    if |parts| == 1 {
      SplitFree(parts[0], sep);
    } else {
      SplitJoin(parts[1..], sep);
      SplitAfterPiece(parts[0], Join(parts[1..], sep), sep);
    }
  }

  /** A separator-free string is a single piece. */
  lemma {:induction false} SplitFree(s: string, sep: char)
    requires sep !in s
    ensures Split(s, sep) == [s]
  {
    if s != [] {
      SplitFree(s[1..], sep);
      assert [s[0]] + s[1..] == s;
    }
  }

  /** The first piece ends at the first separator. */
  lemma {:induction false} SplitAfterPiece(piece: string, tail: string, sep: char)
    requires sep !in piece
    ensures Split(piece + [sep] + tail, sep) == [piece] + Split(tail, sep)
  {
    if piece != [] {
      var whole := piece + [sep] + tail;
      assert whole[0] == piece[0] && whole[1..] == piece[1..] + [sep] + tail;
      SplitAfterPiece(piece[1..], tail, sep);
      assert [piece[0]] + piece[1..] == piece;
    } else {
      assert (piece + [sep] + tail)[1..] == tail;
    }
  }

  /** The stream path: the pathname up to its first '.'. */
  function StreamPathOf(pathname: string): (path: string)
    ensures '.' !in path
    ensures path <= pathname
    ensures |path| == |pathname| || pathname[|path|] == '.'
  {
    var parts := Split(pathname, '.');
    JoinSplit(pathname, '.');
    assert |parts| > 1 ==> pathname == parts[0] + ['.'] + Join(parts[1..], '.');
    parts[0]
  }

  /** The format: the text between the first and the second '.', or absent
      (`undefined`) when the pathname has no '.'. */
  function FormatOf(pathname: string): (format: Option<string>)
    ensures format.None? <==> '.' !in pathname
    ensures format.Some? ==> '.' !in format.value
  {
    var parts := Split(pathname, '.');
    JoinSplit(pathname, '.');
    assert '.' !in pathname ==> |parts| == 1 by {
      if '.' !in pathname { SplitFree(pathname, '.'); }
    }
    if |parts| > 1 then Some(parts[1]) else None
  }

  /** A pathname `<path>.<format>` or `<path>.<format>.<more>` splits into that
      stream path and that format. */
  lemma {:induction false} PathAndFormat(path: string, format: string, more: Option<string>)
    requires '.' !in path && '.' !in format
    ensures var pathname := path + "." + format + (if more.Some? then "." + more.value else "");
      StreamPathOf(pathname) == path && FormatOf(pathname) == Some(format)
  {
    var suffix := format + (if more.Some? then "." + more.value else "");
    assert path + "." + format + (if more.Some? then "." + more.value else "") == path + ['.'] + suffix;
    SplitAfterPiece(path, suffix, '.');
    if more.Some? {
      assert suffix == format + ['.'] + more.value;
      SplitAfterPiece(format, more.value, '.');
    } else {
      SplitFree(format, '.');
      assert suffix == format;
    }
  }

  /** Conversely, an accepted "flv" format means the pathname is the stream
      path, ".flv", and then nothing or a further '.'-separated remainder. */
  lemma FlvFormatShape(pathname: string)
    requires FormatOf(pathname) == Some("flv")
    ensures var n := |StreamPathOf(pathname)|;
      && n + 4 <= |pathname|
      && pathname[..n] == StreamPathOf(pathname)
      && pathname[n..n + 4] == ".flv"
      && (n + 4 == |pathname| || pathname[n + 4] == '.')
  {
    var parts := Split(pathname, '.');
    JoinSplit(pathname, '.');
    assert Join(parts, '.') == parts[0] + "." + Join(parts[1..], '.');
    if |parts| > 2 {
      assert Join(parts[1..], '.') == "flv" + "." + Join(parts[2..], '.');
    }
  }

  /** The example of a rejected request: "/live/x.mp4" has the format "mp4". */
  lemma Mp4IsNotFlv()
    ensures StreamPathOf("/live/x.mp4") == "/live/x" && FormatOf("/live/x.mp4") == Some("mp4")
  {
    PathAndFormat("/live/x", "mp4", None);
    assert "/live/x" + "." + "mp4" + "" == "/live/x.mp4";
  }

}
