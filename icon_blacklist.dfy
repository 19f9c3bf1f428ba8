/**
 * The icon blacklist setting: a comma-separated list of status-bar slot
 * names whose icons are hidden, parsed into a set of slot names.
 */
module IconBlacklist {
  import opened Wrappers

  /** The tuner key of the setting. */
  const IconBlacklistKey: string := "icon_blacklist"

  /** The pieces of `s` between commas, empty pieces included; never an empty list. */
  function Pieces(s: string): (r: seq<string>)
    ensures |r| >= 1
    ensures forall i :: 0 <= i < |r| ==> ',' !in r[i]
  {
    if |s| == 0 then [""]
    else if s[0] == ',' then [""] + Pieces(s[1..])
    else
      var p := Pieces(s[1..]);
      [[s[0]] + p[0]] + p[1..]
  }

  /** The pieces joined back with commas between them. */
  function Join(xs: seq<string>): string
    requires |xs| >= 1
  {
    if |xs| == 1 then xs[0] else xs[0] + "," + Join(xs[1..])
  }

  /** Splitting at every comma and joining again gives back the string. */
  lemma {:induction false} JoinPieces(s: string)
    ensures Join(Pieces(s)) == s
    decreases |s|
  {
    if |s| == 0 {
    } else if s[0] == ',' {
      JoinPieces(s[1..]);
      assert Pieces(s) == [""] + Pieces(s[1..]);
      assert Join(Pieces(s)) == "" + "," + Join(Pieces(s[1..]));
      assert s == [','] + s[1..];
    } else {
      var p := Pieces(s[1..]);
      JoinPieces(s[1..]);
      assert Pieces(s) == [[s[0]] + p[0]] + p[1..];
      if |p| == 1 {
        assert Join(Pieces(s)) == [s[0]] + p[0];
      } else {
        assert Join(p) == p[0] + "," + Join(p[1..]);
        assert Pieces(s)[1..] == p[1..];
        assert Join(Pieces(s)) == ([s[0]] + p[0]) + "," + Join(p[1..]);
      }
      assert Join(Pieces(s)) == [s[0]] + Join(p);
      assert s == [s[0]] + s[1..];
    }
  }

  /** Joining comma-free pieces and splitting again gives back the pieces. */
  lemma {:induction false} PiecesJoin(xs: seq<string>)
    requires |xs| >= 1
    requires forall i :: 0 <= i < |xs| ==> ',' !in xs[i]
    ensures Pieces(Join(xs)) == xs
    decreases |xs|, |xs[0]|
  {
    if |xs[0]| == 0 {
      if |xs| == 1 {
      } else {
        PiecesJoin(xs[1..]);
        assert Join(xs) == [','] + Join(xs[1..]);
        assert Join(xs)[1..] == Join(xs[1..]);
        assert xs == [""] + xs[1..];
      }
    } else {
      var c := xs[0][0];
      var ys := [xs[0][1..]] + xs[1..];
      assert ys[1..] == xs[1..];
      assert forall i :: 0 <= i < |ys| ==> ',' !in ys[i] by {
        assert forall i :: 1 <= i < |ys| ==> ys[i] == xs[i];
      }
      PiecesJoin(ys);
      assert xs[0] == [c] + xs[0][1..];
      assert Join(xs) == [c] + Join(ys) by {
        if |xs| > 1 {
          assert Join(ys) == xs[0][1..] + "," + Join(xs[1..]);
        }
      }
      assert Join(xs)[1..] == Join(ys);
      assert c != ',';
      assert xs == [[c] + ys[0]] + ys[1..];
    }
  }

  /** Java's `split(",")`: no comma gives the string itself; otherwise trailing empty pieces are dropped. */
  function JavaSplit(s: string): seq<string> {
    if ',' !in s then [s] else DropTrailingEmpty(Pieces(s))
  }

  function DropTrailingEmpty(xs: seq<string>): (r: seq<string>)
    ensures |r| <= |xs| && r == xs[..|r|]
    ensures forall i :: |r| <= i < |xs| ==> xs[i] == ""
  {
    if |xs| == 0 then []
    else if xs[|xs| - 1] == "" then DropTrailingEmpty(xs[..|xs| - 1])
    else xs
  }

  /** Dropping trailing pieces only drops empty ones, so the non-empty pieces stay the same. */
  lemma JavaSplitNonEmpty(s: string)
    ensures forall t :: t != "" ==> (t in JavaSplit(s) <==> t in Pieces(s))
  {
    if ',' in s {
      var xs := Pieces(s);
      var r := DropTrailingEmpty(xs);
      forall t | t != "" && t in xs
        ensures t in r
      {
        var i :| 0 <= i < |xs| && xs[i] == t;
        assert i < |r|;
        assert r[i] == t;
      }
    } else {
      NoCommaOnePiece(s);
    }
  }

  lemma {:induction false} NoCommaOnePiece(s: string)
    requires ',' !in s
    ensures Pieces(s) == [s]
    decreases |s|
  {
    if |s| > 0 {
      assert ',' !in s[1..] by {
        forall i | 0 <= i < |s[1..]| ensures s[1..][i] != ',' { assert s[1..][i] == s[i + 1]; }
      }
      NoCommaOnePiece(s[1..]);
      assert s == [s[0]] + s[1..];
    }
  }

  /**
   * The blacklist a setting value stands for: no value gives the empty set;
   * otherwise the non-empty pieces between commas, untrimmed. No member is
   * empty or contains a comma.
   */
  function Blacklist(value: Option<string>): (r: set<string>)
    ensures value.None? ==> r == {}
    ensures forall t :: t in r ==> t != "" && ',' !in t
  {
    match value
    case None => {}
    case Some(s) => set t | t in Pieces(s) && t != ""
  }

  /**
   * `getIconBlacklist`: one pass over the split value, adding every
   * non-empty piece.
   */
  method GetIconBlacklist(value: Option<string>) returns (ret: set<string>)
    ensures ret == Blacklist(value)
  {
    ret := {};
    if value.Some? {
      var slots := JavaSplit(value.value);
      var i := 0;
      while i < |slots|
        invariant 0 <= i <= |slots|
        invariant ret == set t | t in slots[..i] && t != ""
      {
        var slot := slots[i];
        if slot != "" {
          ret := ret + {slot};
        }
        assert slots[..i + 1] == slots[..i] + [slot];
        i := i + 1;
      }
      assert slots[..i] == slots;
      JavaSplitNonEmpty(value.value);
    }
  }

  /**
   * The blacklist of a value written as comma-separated slot names is
   * exactly the set of the non-empty names.
   */
  lemma BlacklistOfJoin(xs: seq<string>)
    requires |xs| >= 1
    requires forall i :: 0 <= i < |xs| ==> ',' !in xs[i]
    ensures Blacklist(Some(Join(xs))) == set t | t in xs && t != ""
  {
    PiecesJoin(xs);
  }

  /** Empty pieces vanish and spaces are kept. */
  lemma BlacklistExample()
    ensures Blacklist(Some("rotate,, headset,")) == {"rotate", " headset"}
  {
    var xs := ["rotate", "", " headset", ""];
    assert Join(xs) == "rotate,, headset,";
    BlacklistOfJoin(xs);
    assert forall t :: t in xs && t != "" <==> t == "rotate" || t == " headset";
  }

  /** A value of nothing but commas, or the empty value, hides no icon. */
  lemma EmptyBlacklistExample()
    ensures Blacklist(Some("")) == {} && Blacklist(Some(",,")) == {}
  {
    var ys := ["", "", ""];
    assert Join(ys) == ",,";
    BlacklistOfJoin(ys);
    assert Pieces("") == [""];
  }
}
