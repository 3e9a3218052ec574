/**
 The two string rules of the store: the username fallback of initializeGameState
 and the wing-key to element-id mapping of checkWingUnlock.
 */
module TextRules {
  import opened GameTypes

  /** The part of an email before its first '@' (the whole email when it has none),
      i.e. the first element of email.split('@'). */
  function EmailPrefix(email: string): (r: string)
    ensures r <= email
    ensures '@' !in r
    ensures |r| < |email| ==> email[|r|] == '@'
  {
    if email == [] || email[0] == '@' then [] else [email[0]] + EmailPrefix(email[1..])
  }

  /** The three properties of EmailPrefix determine it: no other prefix has them. */
  lemma {:induction false} EmailPrefixUnique(email: string, p: string)
    requires p <= email && '@' !in p
    requires |p| < |email| ==> email[|p|] == '@'
    ensures p == EmailPrefix(email)
  {
    if email != [] && email[0] != '@' {
      assert p != [];
      assert p[0] == email[0];
      assert p[1..] <= email[1..];
      assert '@' !in p[1..] by {
        forall c | c in p[1..] ensures c != '@' { assert c in p; }
      }
      EmailPrefixUnique(email[1..], p[1..]);
      assert p == [p[0]] + p[1..];
    }
  }

  /** The metadata username when it is a non-empty string, otherwise the email prefix. */
  function Username(u: User): (r: string)
    ensures u.metadataUsername.Some? && u.metadataUsername.value != "" ==> r == u.metadataUsername.value
    ensures u.metadataUsername.None? || u.metadataUsername.value == "" ==>
      r <= u.email && '@' !in r && (|r| < |u.email| ==> u.email[|r|] == '@')
  {
    if u.metadataUsername.Some? && u.metadataUsername.value != "" then u.metadataUsername.value
    else EmailPrefix(u.email)
  }

  /** The element id of a wing key: its first '_' (and only that one) becomes '-'. */
  function ElementId(key: string): (r: string)
    ensures |r| == |key|
    ensures forall j :: 0 <= j < |key| ==>
      r[j] == if key[j] == '_' && '_' !in key[..j] then '-' else key[j]
  {
    if key == [] then []
    else if key[0] == '_' then
      var r := "-" + key[1..];
      assert forall j :: 0 < j < |key| ==> key[0] in key[..j];
      r
    else
      var rest := key[1..];
      var tail := ElementId(rest);
      var r := [key[0]] + tail;
      assert forall j :: 0 < j < |key| ==> r[j] == tail[j - 1] && key[j] == rest[j - 1];
      assert forall j :: 0 < j < |key| ==> ('_' in key[..j] <==> '_' in rest[..j - 1]) by {
        forall j | 0 < j < |key| ensures '_' in key[..j] <==> '_' in rest[..j - 1] {
          assert key[..j] == [key[0]] + rest[..j - 1];
        }
      }
      r
  }
}
