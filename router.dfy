/** The intent router of `CafeAgent.run`: the router reply is cleaned of
    markdown fences, parsed, and read for its `intent` tag, defaulting to CHAT. */
module Router {
  import opened Values
  import opened Text

  const JsonFence := "```json"
  const Fence := "```"

  /** The reply with every "```json" removed, then every "```", then stripped. */
  function CleanReply(raw: string): (clean: string)
    ensures !Contains(clean, Fence)
    ensures clean == [] || (!IsSpace(clean[0]) && !IsSpace(clean[|clean| - 1]))
  {
    var unfenced := RemoveAll(RemoveAll(raw, JsonFence), Fence);
    RemoveFenceLeavesNone(RemoveAll(raw, JsonFence));
    StripKeepsAbsence(unfenced, Fence);
    Strip(unfenced)
  }

  // ------------------------------------------------- why no fence survives

  /** No three backticks in a row, defined position by position from the front. */
  predicate FenceFree(t: string)
    decreases |t|
  {
    |t| < 3 || (t[..3] != Fence && FenceFree(t[1..]))
  }

  /** A fence anywhere in `t` breaks `FenceFree(t)`. */
  lemma {:induction false} FenceBreaksFenceFree(t: string, i: int)
    requires OccursAt(t, Fence, i)
    ensures !FenceFree(t)
    decreases i
  {
    if i > 0 {
      assert t[1..][i - 1..i + 2] == t[i..i + 3];
      FenceBreaksFenceFree(t[1..], i - 1);
    }
  }

  /** Removing fences keeps a leading character that is not a backtick. */
  lemma RemoveFenceKeepsHead(s: string)
    requires |s| > 0 && s[0] != '`'
    ensures |RemoveAll(s, Fence)| > 0 && RemoveAll(s, Fence)[0] == s[0]
  {
    if |s| >= 3 {
      assert s[..3][0] == s[0];
    }
  }

  /** A string that does not start with two backticks still does not after fences are removed. */
  lemma RemoveFenceNoDoubleStart(s: string)
    requires !(|s| >= 2 && s[0] == '`' && s[1] == '`')
    ensures var r := RemoveAll(s, Fence); !(|r| >= 2 && r[0] == '`' && r[1] == '`')
  {
    if |s| > 0 && s[0] != '`' {
      RemoveFenceKeepsHead(s);
    } else if |s| >= 3 {
      assert s[..3][1] == s[1];
      assert RemoveAll(s, Fence) == [s[0]] + RemoveAll(s[1..], Fence);
      RemoveFenceKeepsHead(s[1..]);
    }
  }

  /** Deleting every "```" leaves no "```": a backtick run left behind is
      always shorter than three, so no new fence forms across a deletion. */
  lemma {:induction false} RemoveFenceLeavesNone(s: string)
    ensures !Contains(RemoveAll(s, Fence), Fence)
  {
    if Contains(RemoveAll(s, Fence), Fence) {
      var i :| OccursAt(RemoveAll(s, Fence), Fence, i);
      FenceBreaksFenceFree(RemoveAll(s, Fence), i);
      RemoveFenceFree(s);
    }
  }

  lemma {:induction false} RemoveFenceFree(s: string)
    ensures FenceFree(RemoveAll(s, Fence))
    decreases |s|
  {
    if |s| >= 3 {
      if s[..3] == Fence {
        RemoveFenceFree(s[3..]);
      } else {
        var t := RemoveAll(s, Fence);
        assert t == [s[0]] + RemoveAll(s[1..], Fence);
        RemoveFenceFree(s[1..]);
        assert t[1..] == RemoveAll(s[1..], Fence);
        if s[0] == '`' {
          assert !(s[1] == '`' && s[2] == '`');
          RemoveFenceNoDoubleStart(s[1..]);
        }
        if |t| >= 3 {
          assert t[..3][0] == s[0] && t[..3][1] == t[1] && t[..3][2] == t[2];
        }
      }
    }
  }

  // ------------------------------------------------ what cleaning accepts

  /** A bare payload without backticks or surrounding whitespace is left as it is. */
  lemma CleanBarePayload(p: string)
    requires '`' !in p
    requires p == [] || (!IsSpace(p[0]) && !IsSpace(p[|p| - 1]))
    ensures CleanReply(p) == p
  {
    RemoveAllAbsent(p, JsonFence);
    RemoveAllAbsent(p, Fence);
  }

  /** Removing "```json" from an opening "```json" and a closing "```" keeps the rest. */
  lemma RemoveJsonFenceAround(body: string)
    requires '`' !in body
    ensures RemoveAll(JsonFence + body + Fence, JsonFence) == body + Fence
  {
    assert JsonFence + body + Fence == JsonFence + (body + Fence);
    RemoveAllLeading(body + Fence, JsonFence);
    RemoveAllKeepsPrefix(body, Fence, JsonFence);
    assert RemoveAll(Fence, JsonFence) == Fence;
  }

  /** Removing "```" from a closing fence leaves what precedes it. */
  lemma RemoveClosingFence(body: string)
    requires '`' !in body
    ensures RemoveAll(body + Fence, Fence) == body
  {
    RemoveAllKeepsPrefix(body, Fence, Fence);
    assert Fence + "" == Fence;
    RemoveAllLeading("", Fence);
    assert body + "" == body;
  }

  /** Stripping a trimmed payload on its own line gives the payload. */
  lemma StripOwnLine(p: string)
    requires p != [] && !IsSpace(p[0]) && !IsSpace(p[|p| - 1])
    ensures Strip("\n" + p + "\n") == p
  {
    var line := "\n" + p + "\n";
    assert line[1..] == p + "\n";
    assert (p + "\n")[0] == p[0];
    assert StripLeft(line) == p + "\n";
    assert (p + "\n")[..|p|] == p;
    assert StripRight(p + "\n") == StripRight(p);
  }

  /** A payload wrapped in a "```json" ... "```" block, one per line, is recovered exactly. */
  lemma CleanFencedPayload(p: string)
    requires '`' !in p
    requires p != [] && !IsSpace(p[0]) && !IsSpace(p[|p| - 1])
    ensures CleanReply(JsonFence + "\n" + p + "\n" + Fence) == p
  {
    var body := "\n" + p + "\n";
    assert '`' !in body;
    assert JsonFence + "\n" + p + "\n" + Fence == JsonFence + body + Fence;
    RemoveJsonFenceAround(body);
    RemoveClosingFence(body);
    StripOwnLine(p);
  }

  // ---------------------------------------------------------------- intent

  /** The branch a turn takes. `Search` carries `intent_data.get("search_query", user_query)`
      and `intent_data.get("target_needs", [])`; `Unrecognised` is an `intent`
      value that matches none of the three tags. */
  datatype Intent =
    | Chat
    | FollowUp
    | Search(query: Json, needs: Json)
    | Unrecognised(tag: Json)

  /** The parsed reply is a JSON object whose "intent" field is present. */
  predicate Tagged(parsed: Option<Json>) {
    parsed.Some? && parsed.value.JObject? && "intent" in parsed.value.fields
  }

  /** The parsed reply is a JSON object whose "intent" field is the string `tag`. */
  predicate TaggedAs(parsed: Option<Json>, tag: string) {
    Tagged(parsed) && parsed.value.fields["intent"] == JString(tag)
  }

  /** The value bound to `intent` after the try/except: the object's "intent" field,
      or "CHAT" when parsing raised, the value has no `.get`, or the key is absent. */
  function IntentTag(parsed: Option<Json>): (tag: Json)
    ensures !Tagged(parsed) ==> tag == JString("CHAT")
    ensures Tagged(parsed) ==> tag == parsed.value.fields["intent"]
  {
    match parsed
    case Some(JObject(m)) => GetOr(m, "intent", JString("CHAT"))
    case _ => JString("CHAT")
  }

  /** Routing of a parsed router reply (`None` where `json.loads` raised). */
  function Route(parsed: Option<Json>, userQuery: string): (i: Intent)
    ensures parsed.None? ==> i == Chat
    ensures parsed.Some? && !parsed.value.JObject? ==> i == Chat
    ensures !Tagged(parsed) ==> i == Chat
    ensures i == Chat <==> !Tagged(parsed) || TaggedAs(parsed, "CHAT")
    ensures i == FollowUp <==> TaggedAs(parsed, "FOLLOW_UP")
    ensures i.Search? <==> TaggedAs(parsed, "SEARCH")
    ensures i.Unrecognised? <==>
      Tagged(parsed) && !TaggedAs(parsed, "CHAT") && !TaggedAs(parsed, "FOLLOW_UP") && !TaggedAs(parsed, "SEARCH")
    ensures i.Search? ==>
      && i.query == GetOr(parsed.value.fields, "search_query", JString(userQuery))
      && i.needs == GetOr(parsed.value.fields, "target_needs", JArray([]))
  {
    var tag := IntentTag(parsed);
    if tag == JString("CHAT") then Chat
    else if tag == JString("FOLLOW_UP") then FollowUp
    else if tag == JString("SEARCH") then
      var m := parsed.value.fields;
      Search(GetOr(m, "search_query", JString(userQuery)), GetOr(m, "target_needs", JArray([])))
    else Unrecognised(tag)
  }
}
