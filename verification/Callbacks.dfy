/** The three button codecs: approval decisions, conversation actions, and the choices on a busy workspace. */
module Callbacks {
  import opened Options
  import opened Decimal
  import opened Text

  datatype Callback = Callback(id: int, action: string)

  predicate NoColon(s: string) { ':' !in s }

  /** The text before the first colon and the text after it. */
  function Cut(s: string): (r: Option<(string, string)>)
    ensures r.None? <==> NoColon(s)
    ensures r.Some? ==> s == r.value.0 + ":" + r.value.1 && NoColon(r.value.0)
  {
    if s == "" then None
    else if s[0] == ':' then Some(("", s[1..]))
    else
      match Cut(s[1..])
      case None => None
      case Some((a, b)) => assert s == [s[0]] + (a + ":" + b); Some(([s[0]] + a, b))
  }

  lemma {:induction false} CutAt(a: string, b: string)
    requires NoColon(a)
    ensures Cut(a + ":" + b) == Some((a, b))
  {
    if a == "" {
      assert (a + ":" + b)[1..] == b;
    } else {
      assert (a + ":" + b)[1..] == a[1..] + ":" + b;
      CutAt(a[1..], b);
      assert [a[0]] + a[1..] == a;
    }
  }

  /** `s.split(":")`. */
  function SplitAll(s: string): seq<string>
    decreases |s|
  {
    var c := Cut(s);
    if c.None? then [s] else [c.value.0] + SplitAll(c.value.1)
  }

  /** `s.split(":", n)`: at most `n` cuts. */
  function SplitAtMost(s: string, n: nat): seq<string>
    decreases n
  {
    var c := Cut(s);
    if n == 0 || c.None? then [s] else [c.value.0] + SplitAtMost(c.value.1, n - 1)
  }

  // ---- Approval decisions ----

  function EncodeApproval(id: int, action: string): string { "approval" + ":" + (Render(id) + ":" + action) }

  function DecodeApproval(data: string): Option<Callback> {
    var parts := SplitAll(data);
    if |parts| != 3 || parts[0] != "approval" then None
    else
      var id := ParseInt(parts[1]);
      if id.None? then None else Some(Callback(id.value, parts[2]))
  }

  // ---- Conversation actions ----

  function EncodeConversation(id: int, action: string): string { "conv" + ":" + (Render(id) + ":" + action) }

  function DecodeConversation(data: string): Option<Callback> {
    if !StartsWith(data, "conv:") then None
    else
      var parts := SplitAtMost(data, 2);
      if |parts| != 3 then None
      else
        var id := ParseInt(parts[1]);
        if id.None? then None else Some(Callback(id.value, parts[2]))
  }

  // ---- Busy choices ----

  const BUSY_ACTIONS: seq<string> := ["busy_append", "busy_interrupt", "busy_queue", "busy_cancel", "busy_new_session"]

  function EncodeBusy(id: int, action: string): string { action + ":" + Render(id) }

  /** The first prefix that matches decides, and an unreadable id after it is a refusal. */
  function DecodeBusyFrom(data: string, k: nat): Option<Callback>
    requires k <= |BUSY_ACTIONS|
    decreases |BUSY_ACTIONS| - k
  {
    if k == |BUSY_ACTIONS| then None
    else if StartsWith(data, BUSY_ACTIONS[k] + ":") then
      var id := ParseInt(data[|BUSY_ACTIONS[k]| + 1..]);
      if id.None? then None else Some(Callback(id.value, BUSY_ACTIONS[k]))
    else DecodeBusyFrom(data, k + 1)
  }

  /** `decode_busy_callback`, the scan over the known prefixes. */
  method DecodeBusy(data: string) returns (r: Option<Callback>)
    ensures r == DecodeBusyFrom(data, 0)
  {
    for k := 0 to |BUSY_ACTIONS|
      invariant DecodeBusyFrom(data, 0) == DecodeBusyFrom(data, k)
    {
      if StartsWith(data, BUSY_ACTIONS[k] + ":") {
        var id := ParseInt(data[|BUSY_ACTIONS[k]| + 1..]);
        return if id.None? then None else Some(Callback(id.value, BUSY_ACTIONS[k]));
      }
    }
    return None;
  }

  // ---- What each decoder accepts ----

  lemma RenderNoColon(id: int)
    ensures NoColon(Render(id))
  {
    RenderRoundTrip(id);
  }

  lemma ThreeParts(data: string)
    ensures |SplitAll(data)| == 3 <==>
              Cut(data).Some? && Cut(Cut(data).value.1).Some? && NoColon(Cut(Cut(data).value.1).value.1)
    ensures |SplitAll(data)| == 3 ==>
              SplitAll(data) == [Cut(data).value.0, Cut(Cut(data).value.1).value.0, Cut(Cut(data).value.1).value.1]
  {
    hide Cut;
    if Cut(data).Some? {
      var x := Cut(data).value.1;
      if Cut(x).Some? {
        var y := Cut(x).value.1;
        assert SplitAll(x) == [Cut(x).value.0] + SplitAll(y);
        if Cut(y).Some? {
          assert |SplitAll(Cut(y).value.1)| >= 1;
        }
      }
    }
  }

  /** A string is accepted as an approval exactly when it is the tag, a readable integer and an action without a colon. */
  lemma ApprovalAccepts(data: string, c: Callback)
    ensures DecodeApproval(data) == Some(c) <==>
            exists t: string :: data == "approval" + ":" + (t + ":" + c.action) && NoColon(t) && NoColon(c.action) && ParseInt(t) == Some(c.id)
  {
    hide ParseInt, Cut, SplitAll, NoColon;
    ThreeParts(data);
    if DecodeApproval(data) == Some(c) {
      var x := Cut(data).value;
      var y := Cut(x.1).value;
      assert data == "approval" + ":" + (y.0 + ":" + y.1);
    }
    if t: string :| data == "approval" + ":" + (t + ":" + c.action) && NoColon(t) && NoColon(c.action) && ParseInt(t) == Some(c.id) {
      TagNoColon();
      CutAt("approval", t + ":" + c.action);
      CutAt(t, c.action);
    }
  }

  lemma TagNoColon()
    ensures NoColon("approval")
  {}

  lemma ConversationAccepts(data: string, c: Callback)
    ensures DecodeConversation(data) == Some(c) <==>
            exists t: string :: data == "conv" + ":" + (t + ":" + c.action) && NoColon(t) && ParseInt(t) == Some(c.id)
  {
    hide ParseInt, Cut;
    if StartsWith(data, "conv:") {
      ConvTag(data);
    }
    if DecodeConversation(data) == Some(c) {
      var y := Cut(data[5..]).value;
      assert data == "conv" + ":" + (y.0 + ":" + y.1);
    }
    if t: string :| data == "conv" + ":" + (t + ":" + c.action) && NoColon(t) && ParseInt(t) == Some(c.id) {
      CutAt("conv", t + ":" + c.action);
      CutAt(t, c.action);
    }
  }

  lemma ConvTag(data: string)
    requires StartsWith(data, "conv:")
    ensures data == "conv" + ":" + data[5..] && Cut(data) == Some(("conv", data[5..]))
  {
    assert data == data[..5] + data[5..];
    assert data == "conv" + ":" + data[5..];
    CutAt("conv", data[5..]);
  }

  lemma {:induction false} BusyAcceptsFrom(data: string, c: Callback, k: nat)
    requires k <= |BUSY_ACTIONS|
    ensures DecodeBusyFrom(data, k) == Some(c) <==>
            c.action in BUSY_ACTIONS[k..] && exists t: string :: data == c.action + ":" + t && ParseInt(t) == Some(c.id)
    decreases |BUSY_ACTIONS| - k
  {
    hide ParseInt, NoColon;
    BusyTags();
    if k < |BUSY_ACTIONS| {
      BusyAcceptsFrom(data, c, k + 1);
      assert BUSY_ACTIONS[k..] == [BUSY_ACTIONS[k]] + BUSY_ACTIONS[k + 1..];
      var a := BUSY_ACTIONS[k];
      if StartsWith(data, a + ":") {
        TagIsPrefix(data, a);
        OneTag(a, c.action, data);
      } else {
        NoTag(data, a);
      }
    }
  }

  lemma BusyTags()
    ensures forall a :: a in BUSY_ACTIONS ==> NoColon(a)
  {}

  lemma NoTag(data: string, a: string)
    requires !StartsWith(data, a + ":")
    ensures forall t: string :: data != a + ":" + t
  {
    forall t: string ensures data != a + ":" + t {
      assert (a + ":" + t)[..|a + ":"|] == a + ":";
    }
  }

  lemma TagIsPrefix(data: string, a: string)
    requires StartsWith(data, a + ":")
    ensures data == a + ":" + data[|a| + 1..]
  {
    assert data == data[..|a| + 1] + data[|a| + 1..];
  }

  /** Two colon-free tags of the same string are the same, and so is what follows. */
  lemma OneTag(a: string, b: string, data: string)
    requires NoColon(a) && StartsWith(data, a + ":")
    ensures NoColon(b) ==> forall t: string :: data == b + ":" + t ==> a == b && t == data[|a| + 1..]
  {
    TagIsPrefix(data, a);
    CutAt(a, data[|a| + 1..]);
    if NoColon(b) {
      forall t: string | data == b + ":" + t ensures a == b && t == data[|a| + 1..] {
        CutAt(b, t);
      }
    }
  }

  /** The five choices on a busy workspace. */
  predicate BusyChoice(action: string) {
    || action == "busy_append" || action == "busy_interrupt" || action == "busy_queue" || action == "busy_cancel"
    || action == "busy_new_session"
  }

  lemma BusyChoices(action: string)
    ensures action in BUSY_ACTIONS <==> BusyChoice(action)
  {
    assert BUSY_ACTIONS[0] == "busy_append" && BUSY_ACTIONS[1] == "busy_interrupt" && BUSY_ACTIONS[2] == "busy_queue";
    assert BUSY_ACTIONS[3] == "busy_cancel" && BUSY_ACTIONS[4] == "busy_new_session";
  }

  lemma BusyAccepts(data: string, c: Callback)
    ensures DecodeBusyFrom(data, 0) == Some(c) <==>
            BusyChoice(c.action) && exists t: string :: data == c.action + ":" + t && ParseInt(t) == Some(c.id)
  {
    hide BusyChoice, ParseInt;
    BusyChoices(c.action);
    BusyAcceptsFrom(data, c, 0);
    assert BUSY_ACTIONS[0..] == BUSY_ACTIONS;
  }

  // ---- Round trips ----

  /** An approval decision survives encoding for every integer id, exactly when its action has no colon. */
  lemma ApprovalRoundTrip(id: int, action: string)
    ensures DecodeApproval(EncodeApproval(id, action)) == Some(Callback(id, action)) <==> NoColon(action)
  {
    hide ParseInt, Render;
    RenderRoundTrip(id);
    RenderNoColon(id);
    ApprovalAccepts(EncodeApproval(id, action), Callback(id, action));
  }

  /** A conversation action survives encoding whatever its text. */
  lemma ConversationRoundTrip(id: int, action: string)
    ensures DecodeConversation(EncodeConversation(id, action)) == Some(Callback(id, action))
  {
    hide ParseInt, Render;
    RenderRoundTrip(id);
    RenderNoColon(id);
    ConversationAccepts(EncodeConversation(id, action), Callback(id, action));
  }

  /** A busy choice survives encoding exactly when it is one of the five. */
  lemma BusyRoundTrip(id: int, action: string)
    ensures DecodeBusyFrom(EncodeBusy(id, action), 0) == Some(Callback(id, action)) <==> BusyChoice(action)
  {
    hide ParseInt, Render, BusyChoice;
    RenderRoundTrip(id);
    BusyAccepts(EncodeBusy(id, action), Callback(id, action));
  }

  // ---- Nothing is read twice ----

  function Tag(data: string): string {
    var c := Cut(data);
    if c.None? then "" else c.value.0
  }

  lemma BusyTag(data: string)
    requires DecodeBusyFrom(data, 0).Some?
    ensures Tag(data) in BUSY_ACTIONS
  {
    hide ParseInt, NoColon, DecodeBusyFrom;
    BusyTags();
    var c := DecodeBusyFrom(data, 0).value;
    BusyAccepts(data, c);
    BusyChoices(c.action);
    var t: string :| data == c.action + ":" + t && ParseInt(t) == Some(c.id);
    CutAt(c.action, t);
  }

  /** No string is accepted by two of the three decoders. */
  lemma DecodersDisjoint(data: string)
    ensures !(DecodeApproval(data).Some? && DecodeConversation(data).Some?)
    ensures !(DecodeApproval(data).Some? && DecodeBusyFrom(data, 0).Some?)
    ensures !(DecodeConversation(data).Some? && DecodeBusyFrom(data, 0).Some?)
  {
    hide ParseInt, DecodeBusyFrom;
    if DecodeBusyFrom(data, 0).Some? {
      BusyTag(data);
    }
    if DecodeConversation(data).Some? {
      ConvTag(data);
    }
  }
}
