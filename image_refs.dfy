/**
 * Image references: the product routes store the uploaded file names as one
 * comma-joined string (`img_url`) and split it back into a list
 * (`img_urls`) on every read. `Split` and `Join` follow JavaScript's
 * `String.prototype.split` and `Array.prototype.join` for a one-character
 * separator.
 */
module ImageRefs {
  import opened Wrappers

  const Comma: char := ','

  /** `s.split(sep)`: the pieces between separators; always at least one piece. */
  function Split(s: string, sep: char): (r: seq<string>)
    ensures |r| >= 1
  {
    if s == [] then [""]
    else
      var rest := Split(s[1..], sep);
      if s[0] == sep then [""] + rest else [[s[0]] + rest[0]] + rest[1..]
  }

  /** `parts.join(sep)`. */
  function Join(parts: seq<string>, sep: char): string {
    if |parts| == 0 then ""
    else if |parts| == 1 then parts[0]
    else parts[0] + [sep] + Join(parts[1..], sep)
  }

  /** The number of times `c` occurs in `s`. */
  function Occurrences(s: string, c: char): nat {
    if s == [] then 0 else (if s[0] == c then 1 else 0) + Occurrences(s[1..], c)
  }

  /**
   * The image transform of the read routes:
   * `img_url ? img_url.split(',') : []`, where an absent and an empty
   * `img_url` are both falsy.
   */
  function ImgUrls(imgUrl: Option<string>): (r: seq<string>)
    ensures forall k :: 0 <= k < |r| ==> Comma !in r[k]
    ensures r != [] ==> imgUrl.Some? && Join(r, Comma) == imgUrl.value
    ensures imgUrl.None? || imgUrl.value == "" ==> r == []
    ensures imgUrl.Some? && imgUrl.value != "" ==>
      |r| == Occurrences(imgUrl.value, Comma) + 1 && Join(r, Comma) == imgUrl.value
  {
    if imgUrl.Some? && imgUrl.value != "" then
      SplitPieces(imgUrl.value, Comma);
      JoinSplit(imgUrl.value, Comma);
      Split(imgUrl.value, Comma)
    else []
  }

  /** Splitting yields one more piece than there are separators, none of them a separator. */
  lemma {:induction false} SplitPieces(s: string, sep: char)
    ensures |Split(s, sep)| == Occurrences(s, sep) + 1
    ensures forall k :: 0 <= k < |Split(s, sep)| ==> sep !in Split(s, sep)[k]
  {
    if s != [] {
      SplitPieces(s[1..], sep);
    }
  }

  /** Joining the pieces of a split gives back the string. */
  lemma {:induction false} JoinSplit(s: string, sep: char)
    ensures Join(Split(s, sep), sep) == s
  {
    if s != [] {
      var rest := Split(s[1..], sep);
      JoinSplit(s[1..], sep);
      if s[0] == sep {
        assert s == [sep] + s[1..];
        if |rest| == 1 {
          assert Join([""] + rest, sep) == "" + [sep] + rest[0];
        } else {
          assert ([""] + rest)[1..] == rest;
        }
      } else {
        assert s == [s[0]] + s[1..];
        var r := [[s[0]] + rest[0]] + rest[1..];
        if |rest| == 1 {
          assert Join(r, sep) == [s[0]] + rest[0];
        } else {
          assert r[1..] == rest[1..];
          assert Join(rest, sep) == rest[0] + [sep] + Join(rest[1..], sep);
        }
      }
    }
  }

  /** A piece with no separator, put in front of `b`, joins the first piece of `b`'s split. */
  lemma {:induction false} SplitPrefix(a: string, b: string, sep: char)
    requires sep !in a
    ensures Split(a + b, sep) == [a + Split(b, sep)[0]] + Split(b, sep)[1..]
  {
    if a != [] {
      assert (a + b)[1..] == a[1..] + b;
      assert (a + b)[0] == a[0];
      SplitPrefix(a[1..], b, sep);
      assert [a[0]] + (a[1..] + Split(b, sep)[0]) == a + Split(b, sep)[0];
    } else {
      assert a + b == b;
      assert a + Split(b, sep)[0] == Split(b, sep)[0];
      assert Split(b, sep) == [Split(b, sep)[0]] + Split(b, sep)[1..];
    }
  }

  /** Splitting what `Join` produced gives back the pieces, if none holds a separator. */
  lemma {:induction false} SplitJoin(parts: seq<string>, sep: char)
    requires |parts| >= 1
    requires forall k :: 0 <= k < |parts| ==> sep !in parts[k]
    ensures Split(Join(parts, sep), sep) == parts
  {
    if |parts| == 1 {
      SplitPrefix(parts[0], "", sep);
      assert parts[0] + "" == parts[0];
    } else {
      var tail := Join(parts[1..], sep);
      SplitJoin(parts[1..], sep);
      assert parts[0] + [sep] + tail == parts[0] + ([sep] + tail);
      SplitPrefix(parts[0], [sep] + tail, sep);
      assert ([sep] + tail)[1..] == tail;
      assert parts[0] + "" == parts[0];
      assert parts == [parts[0]] + parts[1..];
    }
  }

  /**
   * A product created with the file names `names` reads back with
   * `img_urls == names`, provided every name is non-empty and has no comma.
   */
  lemma ImageRoundTrip(names: seq<string>)
    requires forall k :: 0 <= k < |names| ==> names[k] != "" && Comma !in names[k]
    ensures ImgUrls(Some(Join(names, Comma))) == names
  {
    if |names| >= 1 {
      SplitJoin(names, Comma);
      assert |Join(names, Comma)| >= |names[0]| by {
        if |names| > 1 {
          assert Join(names, Comma) == names[0] + [Comma] + Join(names[1..], Comma);
        }
      }
    }
  }

  /** The one list of comma-free names that does not survive: a single empty name. */
  lemma EmptyNameLost()
    ensures ImgUrls(Some(Join([""], Comma))) == []
  {
  }
}
