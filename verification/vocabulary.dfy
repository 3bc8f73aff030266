/**
 The custom vocabulary: a comma-separated list read from the environment,
 split on every comma, with the empty fields dropped.
 */
module Vocabulary {
  import opened Common

  /** The fields of `s` between commas, as splitting on "," gives them:
      n commas give n + 1 fields, some of which may be empty. */
  function Fields(s: string): (r: seq<string>)
    ensures |r| >= 1
    ensures forall i :: 0 <= i < |r| ==> ',' !in r[i]
    decreases |s|
  {
    if s == [] then [[]]
    else
      var rest := Fields(s[1..]);
      if s[0] == ',' then [[]] + rest
      else [[s[0]] + rest[0]] + rest[1..]
  }

  /** The words joined with single commas between them. */
  function Join(ws: seq<string>): string
  {
    if |ws| == 0 then []
    else if |ws| == 1 then ws[0]
    else ws[0] + [','] + Join(ws[1..])
  }

  /** The non-empty words of `ws`, in their original order. */
  function NonEmpty(ws: seq<string>): (r: seq<string>)
    ensures |r| <= |ws|
    ensures forall i :: 0 <= i < |r| ==> r[i] != [] && r[i] in ws
    ensures forall w :: w in ws && w != [] ==> w in r
  {
    if ws == [] then []
    else if ws[0] == [] then NonEmpty(ws[1..])
    else [ws[0]] + NonEmpty(ws[1..])
  }

  /** The vocabulary the transcriber is configured with, given the value of
      the environment variable (absent counts as the empty string). */
  function ParseVocabulary(env: Option<string>): (r: seq<string>)
    ensures forall i :: 0 <= i < |r| ==> r[i] != [] && ',' !in r[i]
    ensures env == None || env == Some([]) ==> r == []
  {
    var raw := match env case None => [] case Some(s) => s;
    NonEmpty(Fields(raw))
  }

  /** Splitting loses nothing: joining the fields back gives the input. */
  lemma {:induction false} JoinFields(s: string)
    ensures Join(Fields(s)) == s
    decreases |s|
  {
    if s != [] {
      var rest := Fields(s[1..]);
      JoinFields(s[1..]);
      if s[0] == ',' {
        assert Fields(s) == [[]] + rest;
        assert Join(Fields(s)) == [] + [','] + Join(rest);
      } else if |rest| == 1 {
        assert Fields(s) == [[s[0]] + rest[0]];
      } else {
        var fs := Fields(s);
        assert fs == [[s[0]] + rest[0]] + rest[1..];
        assert fs[1..] == rest[1..];
        assert Join(rest) == rest[0] + [','] + Join(rest[1..]);
        assert Join(fs) == [s[0]] + rest[0] + [','] + Join(rest[1..]);
        assert s == [s[0]] + s[1..];
      }
    }
  }

  /** A comma-free prefix is glued onto the first field of what follows it. */
  lemma {:induction false} FieldsPrefix(w: string, s: string)
    requires ',' !in w
    ensures Fields(w + s) == [w + Fields(s)[0]] + Fields(s)[1..]
    decreases |w|
  {
    if w != [] {
      assert (w + s)[0] == w[0] && (w + s)[1..] == w[1..] + s;
      FieldsPrefix(w[1..], s);
      assert [w[0]] + (w[1..] + Fields(s)[0]) == w + Fields(s)[0];
    } else {
      assert w + s == s;
      assert w + Fields(s)[0] == Fields(s)[0];
      assert Fields(s) == [Fields(s)[0]] + Fields(s)[1..];
    }
  }

  /** Splitting undoes joining for words that hold no comma. */
  lemma {:induction false} FieldsJoin(ws: seq<string>)
    requires |ws| >= 1
    requires forall i :: 0 <= i < |ws| ==> ',' !in ws[i]
    ensures Fields(Join(ws)) == ws
    decreases |ws|
  {
    if |ws| == 1 {
      FieldsPrefix(ws[0], []);
      assert ws[0] + [] == ws[0];
    } else {
      var tail := [','] + Join(ws[1..]);
      FieldsJoin(ws[1..]);
      assert tail[0] == ',' && tail[1..] == Join(ws[1..]);
      assert Fields(tail) == [[]] + ws[1..];
      assert Join(ws) == ws[0] + tail;
      FieldsPrefix(ws[0], tail);
      assert ws[0] + [] == ws[0];
    }
  }

  /** Dropping empty words from a list that has none changes nothing. */
  lemma {:induction false} NonEmptyKeeps(ws: seq<string>)
    requires forall i :: 0 <= i < |ws| ==> ws[i] != []
    ensures NonEmpty(ws) == ws
    decreases |ws|
  {
    if ws != [] {
      NonEmptyKeeps(ws[1..]);
    }
  }

  /** The filtered list is empty exactly when every word was empty. */
  lemma {:induction false} NonEmptyIsEmpty(ws: seq<string>)
    ensures NonEmpty(ws) == [] <==> forall i :: 0 <= i < |ws| ==> ws[i] == []
    decreases |ws|
  {
    if ws != [] {
      NonEmptyIsEmpty(ws[1..]);
      if ws[0] == [] {
        forall i | 1 <= i < |ws| ensures ws[i] == ws[1..][i - 1] { }
      }
    }
  }

  /** Filtering distributes over concatenation: the kept words of two lists
      are those of the first followed by those of the second, so the filter
      keeps order and repeated words. */
  lemma {:induction false} NonEmptyAppend(a: seq<string>, b: seq<string>)
    ensures NonEmpty(a + b) == NonEmpty(a) + NonEmpty(b)
    decreases |a|
  {
    if a == [] {
      assert a + b == b;
    } else {
      assert (a + b)[0] == a[0] && (a + b)[1..] == a[1..] + b;
      NonEmptyAppend(a[1..], b);
    }
  }

  /** Comma-free words written comma-separated are read back as those words
      with the empty ones dropped, in order and repeats included. Every
      variable value is written this way: it is the join of its own fields. */
  lemma ParseJoin(ws: seq<string>)
    requires forall i :: 0 <= i < |ws| ==> ',' !in ws[i]
    ensures ParseVocabulary(Some(Join(ws))) == NonEmpty(ws)
  {
    if ws != [] {
      FieldsJoin(ws);
    }
  }

  /** A vocabulary of non-empty, comma-free words written comma-separated
      into the environment is read back exactly, order included. */
  lemma ParseJoinClean(ws: seq<string>)
    requires forall i :: 0 <= i < |ws| ==> ws[i] != [] && ',' !in ws[i]
    ensures ParseVocabulary(Some(Join(ws))) == ws
  {
    ParseJoin(ws);
    NonEmptyKeeps(ws);
  }

  /** The vocabulary is empty exactly when the variable is absent or holds
      nothing but commas. */
  lemma ParseEmpty(env: Option<string>)
    ensures ParseVocabulary(env) == [] <==>
      env.None? || forall i :: 0 <= i < |env.value| ==> env.value[i] == ','
  {
    if env.Some? {
      assert ParseVocabulary(env) == NonEmpty(Fields(env.value));
      NonEmptyIsEmpty(Fields(env.value));
      AllFieldsEmpty(env.value);
    }
  }

  /** Every field is empty exactly when the string is made of commas only. */
  lemma {:induction false} AllFieldsEmpty(s: string)
    ensures (forall i :: 0 <= i < |Fields(s)| ==> Fields(s)[i] == []) <==>
            (forall i :: 0 <= i < |s| ==> s[i] == ',')
    decreases |s|
  {
    if s != [] {
      AllFieldsEmpty(s[1..]);
      var rest := Fields(s[1..]);
      if s[0] == ',' {
        var fs := Fields(s);
        assert fs == [[]] + rest;
        assert (forall i :: 0 <= i < |fs| ==> fs[i] == []) <==>
               (forall i :: 0 <= i < |rest| ==> rest[i] == []) by {
          forall i | 1 <= i < |fs| ensures fs[i] == rest[i - 1] { }
          forall i | 0 <= i < |rest| ensures rest[i] == fs[i + 1] { }
        }
        assert (forall i :: 0 <= i < |s| ==> s[i] == ',') <==>
               (forall i :: 0 <= i < |s[1..]| ==> s[1..][i] == ',') by {
          forall i | 1 <= i < |s| ensures s[i] == s[1..][i - 1] { }
        }
      } else {
        assert Fields(s)[0] == [s[0]] + rest[0];
      }
    }
  }
}
