/**
  * The labels of the detail page's external-link buttons. The three
  * game-design-document keys have fixed labels and the document button style;
  * any other key of a project's `links` object is shown with its first
  * character upper-cased and a space put before every later capital letter.
  */
module LinkLabels {
  import opened Wrappers
  import opened Catalog

  const GddLabel: string := "View Full Game Design Document"
  const ConceptGddLabel: string := "View Concept & Research GDD"
  const GameGddLabel: string := "View Game Systems GDD"

  /** A button of the links block. */
  datatype LinkButton = LinkButton(platform: string, text: string, isGdd: bool)

  /** The keys that get the document button style. */
  predicate IsGdd(key: string)
  {
    key == "gdd" || key == "conceptGdd" || key == "gameGdd"
  }

  predicate IsUpper(c: char)
  {
    'A' <= c <= 'Z'
  }

  /** `toUpperCase` on one character, for the ASCII letters. */
  function ToUpper(c: char): (u: char)
    ensures 'a' <= c <= 'z' ==> IsUpper(u) && u as int == c as int - 32
    ensures !('a' <= c <= 'z') ==> u == c
  {
    if 'a' <= c <= 'z' then (c as int - 32) as char else c
  }

  /**
    * `t.replace(/([A-Z])/g, ' $1')`: one space is added per capital letter, and
    * the result never starts with a capital letter.
    */
  function SpaceBeforeCapitals(t: string): (u: string)
    ensures |u| == |t| + CountUpper(t)
    ensures u == [] || !IsUpper(u[0])
  {
    if t == [] then []
    else (if IsUpper(t[0]) then [' ', t[0]] else [t[0]]) + SpaceBeforeCapitals(t[1..])
  }

  /** Removes each space that stands right before a capital letter. */
  function DropSpacesBeforeCapitals(u: string): string
    decreases |u|
  {
    if u == [] then []
    else if |u| >= 2 && u[0] == ' ' && IsUpper(u[1]) then [u[1]] + DropSpacesBeforeCapitals(u[2..])
    else [u[0]] + DropSpacesBeforeCapitals(u[1..])
  }

  function CountUpper(t: string): nat
  {
    if t == [] then 0 else (if IsUpper(t[0]) then 1 else 0) + CountUpper(t[1..])
  }

  /**
    * `key.charAt(0).toUpperCase() + key.slice(1).replace(/([A-Z])/g, ' $1')`:
    * the first character is upper-cased, and the rest is the rest of the key
    * with one space before each capital letter.
    */
  function Capitalize(key: string): (r: string)
    ensures key == "" ==> r == ""
    ensures key != "" ==>
      |r| == |key| + CountUpper(key[1..])
      && r[0] == ToUpper(key[0])
      && DropSpacesBeforeCapitals(r[1..]) == key[1..]
  {
    if key == "" then ""
    else
      var r := [ToUpper(key[0])] + SpaceBeforeCapitals(key[1..]);
      DropUndoesSpacing(key[1..]);
      assert r[1..] == SpaceBeforeCapitals(key[1..]);
      r
  }

  /**
    * The text of the button for `key`: never shorter than the key and empty only
    * for the empty key; a key other than the three document keys is shown
    * capitalised.
    */
  function Label(key: string): (r: string)
    ensures r == "" <==> key == ""
    ensures |r| >= |key|
    ensures !IsGdd(key) && key != "" ==>
      |r| == |key| + CountUpper(key[1..])
      && r[0] == ToUpper(key[0]) && DropSpacesBeforeCapitals(r[1..]) == key[1..]
  {
    if key == "gdd" then GddLabel
    else if key == "conceptGdd" then ConceptGddLabel
    else if key == "gameGdd" then GameGddLabel
    else Capitalize(key)
  }

  function Buttons(keys: seq<string>): (r: seq<LinkButton>)
    ensures |r| == |keys|
    ensures forall k :: 0 <= k < |keys| ==> r[k] == LinkButton(keys[k], Label(keys[k]), IsGdd(keys[k]))
  {
    seq(|keys|, k requires 0 <= k < |keys| => LinkButton(keys[k], Label(keys[k]), IsGdd(keys[k])))
  }

  /**
    * The links block: rendered only when the project has at least one link,
    * with one button per key, in the keys' order.
    */
  function LinksBlock(keys: seq<string>): (r: Option<seq<LinkButton>>)
    ensures r.None? <==> |keys| == 0
    ensures r.Some? ==> |r.value| == |keys|
    ensures r.Some? ==> forall k :: 0 <= k < |keys| ==>
      r.value[k].platform == keys[k] && r.value[k].text == Label(keys[k])
      && (r.value[k].isGdd <==> IsGdd(keys[k]))
  {
    if |keys| > 0 then Some(Buttons(keys)) else None
  }

  /** Dropping the inserted spaces gives back the original text, whatever it holds. */
  lemma {:induction false} DropUndoesSpacing(t: string)
    ensures DropSpacesBeforeCapitals(SpaceBeforeCapitals(t)) == t
  {
    if t != [] {
      var rest := SpaceBeforeCapitals(t[1..]);
      DropUndoesSpacing(t[1..]);
      if IsUpper(t[0]) {
        var u := [' ', t[0]] + rest;
        assert u[2..] == rest;
      } else {
        var u := [t[0]] + rest;
        assert u[1..] == rest;
      }
    }
  }

  /** After the replacement every capital letter has a space right before it. */
  lemma {:induction false} CapitalsFollowSpaces(t: string)
    ensures forall i :: 0 <= i < |SpaceBeforeCapitals(t)| && IsUpper(SpaceBeforeCapitals(t)[i]) ==>
      0 < i && SpaceBeforeCapitals(t)[i - 1] == ' '
  {
    if t != [] {
      var rest := SpaceBeforeCapitals(t[1..]);
      CapitalsFollowSpaces(t[1..]);
      var head := if IsUpper(t[0]) then [' ', t[0]] else [t[0]];
      var u := head + rest;
      assert SpaceBeforeCapitals(t) == u;
      assert rest == [] || !IsUpper(rest[0]);
      forall i | 0 <= i < |u| && IsUpper(u[i])
        ensures 0 < i && u[i - 1] == ' '
      {
        if i < |head| {
          assert u[i] == head[i];
          if IsUpper(t[0]) {
            assert u[0] == ' ';
          }
        } else {
          var j := i - |head|;
          assert u[i] == rest[j];
          if j > 0 {
            assert u[i - 1] == rest[j - 1];
          }
        }
      }
    }
  }

  /** The three document keys get their fixed labels and the document style, and no other key gets that style. */
  lemma DocumentKeys(key: string)
    ensures Label("gdd") == GddLabel
    ensures Label("conceptGdd") == ConceptGddLabel
    ensures Label("gameGdd") == GameGddLabel
    ensures Buttons([key])[0].isGdd <==> key in {"gdd", "conceptGdd", "gameGdd"}
  {
  }

  /** The labels of the two non-document keys used in the catalog. */
  lemma CatalogLabels()
    ensures Label("itchIo") == "Itch Io"
    ensures Label("ppt") == "Ppt"
  {
    assert SpaceBeforeCapitals("o") == "o";
    assert SpaceBeforeCapitals("Io") == " Io";
    assert SpaceBeforeCapitals("tchIo") == "tch Io";
    assert SpaceBeforeCapitals("pt") == "pt";
  }

  /** The links block of the ammo-batics record, and the absent block of a record without links. */
  lemma CatalogLinksBlocks()
    ensures LinksBlock(ProjectsData()[4].linkKeys)
      == Some([LinkButton("itchIo", "Itch Io", false), LinkButton("gdd", GddLabel, true)])
    ensures LinksBlock(ProjectsData()[2].linkKeys).None?
  {
    var keys := ProjectsData()[4].linkKeys;
    assert keys == ["itchIo", "gdd"];
    CatalogLabels();
    assert Buttons(keys)[0] == LinkButton("itchIo", "Itch Io", false);
    assert Buttons(keys)[1] == LinkButton("gdd", GddLabel, true);
    assert Buttons(keys) == [LinkButton("itchIo", "Itch Io", false), LinkButton("gdd", GddLabel, true)];
    assert ProjectsData()[2].linkKeys == [];
  }
}
