/**
 * Operator status and the server's chat prefix (src/components/core.rs):
 * `set_op_status` computes a new permission level, grants or revokes the
 * `crystal.admin` command scope to match it and greets a new operator;
 * `new_crystal_message` prefixes a message with a red "[Crystal] " tag.
 */
module Operator {
  import opened Wrappers

  /** valence's `OpLevel`: a permission level held in one byte. */
  type Level = l: int | 0 <= l < 256

  /** The command scope that goes with operator status. */
  const ADMIN_SCOPE: string := "crystal.admin"

  /**
   * The level `set_op_status` sets: 4 when asked to grant, 0 when asked to
   * revoke, and when asked to toggle, 0 from level 4 and 4 from any other.
   */
  function NewLevel(state: Option<bool>, current: Level): (level: Level)
    ensures level == 0 || level == 4
    ensures state.Some? ==> (level == 4 <==> state.value)
    ensures state.None? ==> (level == 4 <==> current != 4)
  {
    if state.Some? then (if state.value then 4 else 0)
    else if current == 4 then 0 else 4
  }

  /** The scopes after `set_op_status`: the admin scope present exactly at level 4, every other scope as before. */
  function ScopesAfter(scopes: set<string>, level: Level): (r: set<string>)
    ensures ADMIN_SCOPE in r <==> level == 4
    ensures forall s :: s != ADMIN_SCOPE ==> (s in r <==> s in scopes)
  {
    if level == 4 then scopes + {ADMIN_SCOPE} else scopes - {ADMIN_SCOPE}
  }

  /** Granting or revoking twice leaves the same level and scopes as doing it once. */
  lemma SetIsIdempotent(b: bool, current: Level, scopes: set<string>)
    ensures var once := NewLevel(Some(b), current);
            && NewLevel(Some(b), once) == once
            && ScopesAfter(ScopesAfter(scopes, once), once) == ScopesAfter(scopes, once)
  {
  }

  /**
   * Toggling twice restores an operator (4) or a non-operator (0); from any
   * other level the first toggle grants and the second revokes.
   */
  lemma ToggleTwice(current: Level)
    ensures current == 0 || current == 4 ==> NewLevel(None, NewLevel(None, current)) == current
    ensures current != 0 && current != 4 ==> NewLevel(None, current) == 4 && NewLevel(None, NewLevel(None, current)) == 0
  {
  }

  /** Whatever the request, the admin scope agrees with the level afterwards. */
  lemma ScopeMatchesLevel(state: Option<bool>, current: Level, scopes: set<string>)
    ensures var level := NewLevel(state, current);
            ADMIN_SCOPE in ScopesAfter(scopes, level) <==> level == 4
  {
  }

  // ---------------------------------------------------------------------
  // Chat text
  // ---------------------------------------------------------------------

  datatype Color = Red | Gold | Green | White

  /**
   * A chat text component: its own content, its colour if it sets one, and
   * the components appended to it, which inherit its colour.
   */
  datatype Text = Text(content: string, color: Option<Color>, extra: seq<Text>)

  /** `s.color(c)`. */
  function Colored(s: string, c: Color): Text
  {
    Text(s, Some(c), [])
  }

  /** `a + b`: `b` becomes the last child of `a`. */
  function Append(a: Text, b: Text): Text
  {
    a.(extra := a.extra + [b])
  }

  /** The colour a component is shown in when its parent is shown in `inherited`. */
  function ShownColor(t: Text, inherited: Color): Color
  {
    if t.color.Some? then t.color.value else inherited
  }

  /** Each character of `s` shown in colour `c`. */
  function Paint(s: string, c: Color): seq<(char, Color)>
  {
    if s == [] then [] else [(s[0], c)] + Paint(s[1..], c)
  }

  /** What a client shows for a component: its content, then its children, each character with its colour. */
  function Render(t: Text, inherited: Color): seq<(char, Color)>
    decreases t, 1
  {
    Paint(t.content, ShownColor(t, inherited)) + RenderChildren(t, 0, ShownColor(t, inherited))
  }

  /** The children of `t` from index `i` on, shown under colour `c`. */
  function RenderChildren(t: Text, i: nat, c: Color): seq<(char, Color)>
    decreases t, 0, |t.extra| - i
  {
    if i >= |t.extra| then [] else Render(t.extra[i], c) + RenderChildren(t, i + 1, c)
  }

  lemma {:induction false} RenderChildrenAppend(a: Text, b: Text, i: nat, c: Color)
    requires i <= |a.extra|
    ensures RenderChildren(Append(a, b), i, c) == RenderChildren(a, i, c) + Render(b, c)
    decreases |a.extra| - i
  {
    var ab := Append(a, b);
    if i == |a.extra| {
      assert ab.extra[i] == b;
      assert RenderChildren(ab, i + 1, c) == [];
    } else {
      assert ab.extra[i] == a.extra[i];
      RenderChildrenAppend(a, b, i + 1, c);
    }
  }

  /** Appending shows the left text, then the right one in the left one's colour unless it sets its own. */
  lemma RenderAppend(a: Text, b: Text, inherited: Color)
    ensures Render(Append(a, b), inherited) == Render(a, inherited) + Render(b, ShownColor(a, inherited))
  {
    var c := ShownColor(a, inherited);
    var ab := Append(a, b);
    assert ShownColor(ab, inherited) == c;
    var p := Paint(a.content, c);
    var x := RenderChildren(a, 0, c);
    var y := Render(b, c);
    RenderChildrenAppend(a, b, 0, c);
    assert RenderChildren(ab, 0, c) == x + y;
    ConcatAssoc(p, x, y);
  }

  lemma ConcatAssoc<T>(p: seq<T>, x: seq<T>, y: seq<T>)
    ensures p + (x + y) == (p + x) + y
  {
  }

  const CRYSTAL_PREFIX: string := "[Crystal] "

  /** `new_crystal_message`. */
  function NewCrystalMessage(message: Text): Text
  {
    Append(Append(Colored(CRYSTAL_PREFIX, Red), Colored("", Gold)), message)
  }

  /**
   * A crystal message shows the red prefix, then the message, which is red
   * unless it sets its own colour.
   */
  lemma CrystalMessageShows(message: Text, inherited: Color)
    ensures Render(NewCrystalMessage(message), inherited)
            == Paint(CRYSTAL_PREFIX, Red) + Render(message, Red)
  {
    var tag := Colored(CRYSTAL_PREFIX, Red);
    var gold := Colored("", Gold);
    RenderAppend(tag, gold, inherited);
    RenderAppend(Append(tag, gold), message, inherited);
    assert ShownColor(tag, inherited) == Red && ShownColor(Append(tag, gold), inherited) == Red;
    assert RenderChildren(tag, 0, Red) == [];
    assert Render(tag, inherited) == Paint(CRYSTAL_PREFIX, Red);
    assert RenderChildren(gold, 0, Gold) == [];
    assert Render(gold, Red) == [];
  }

  /** The greeting `set_op_status` sends a new operator. */
  function OperatorGreeting(username: string): Text
  {
    NewCrystalMessage(Colored("Made " + username + " a server operator", Green))
  }

  /** The greeting shows the red prefix followed by the green sentence naming the player. */
  lemma GreetingShows(username: string, inherited: Color)
    ensures Render(OperatorGreeting(username), inherited)
            == Paint(CRYSTAL_PREFIX, Red) + Paint("Made " + username + " a server operator", Green)
  {
    var sentence := Colored("Made " + username + " a server operator", Green);
    CrystalMessageShows(sentence, inherited);
    assert RenderChildren(sentence, 0, Green) == [];
  }

  /** The components of one player that `set_op_status` reads and writes. */
  class Player {
    const username: string
    var opLevel: Level
    var scopes: set<string>
    /** The chat messages sent to this player's client, oldest first. */
    var chat: seq<Text>

    constructor (username: string, opLevel: Level, scopes: set<string>)
      ensures this.username == username && this.opLevel == opLevel && this.scopes == scopes && chat == []
    {
      this.username := username;
      this.opLevel := opLevel;
      this.scopes := scopes;
      chat := [];
    }

    /**
     * `set_op_status`: sets the new level, grants the admin scope at level 4
     * and revokes it otherwise, and greets the player when the new level is 4.
     */
    method SetOpStatus(state: Option<bool>)
      modifies this
      ensures opLevel == NewLevel(state, old(opLevel))
      ensures scopes == ScopesAfter(old(scopes), opLevel)
      ensures chat == old(chat) + (if opLevel == 4 then [OperatorGreeting(username)] else [])
    {
      var level: Level;
      if state.Some? {
        level := if state.value then 4 else 0;
      } else {
        level := if opLevel == 4 then 0 else 4;
      }
      opLevel := level;
      if level == 4 {
        scopes := scopes + {ADMIN_SCOPE};
      } else {
        scopes := scopes - {ADMIN_SCOPE};
      }
      if level == 4 {
        chat := chat + [OperatorGreeting(username)];
      }
    }
  }
}
