/** Keys of caches and dedupe tables: parts joined by colons. */
module ScopeKeys {
  import opened Wrappers

  predicate IsLowerOrDigit(c: char) {
    'a' <= c <= 'z' || '0' <= c <= '9'
  }

  predicate IsSystemId(id: string) {
    && 1 <= |id| <= 64 && IsLowerOrDigit(id[0])
    && forall i :: 0 <= i < |id| ==> IsLowerOrDigit(id[i]) || id[i] == '-'
  }

  predicate IsWorkspaceId(id: string) {
    && 1 <= |id| <= 128 && IsLowerOrDigit(id[0]) && IsLowerOrDigit(id[|id| - 1])
    && forall i :: 0 <= i < |id| ==> IsLowerOrDigit(id[i]) || id[i] == '-'
  }

  predicate NoColon(s: string) {
    forall i :: 0 <= i < |s| ==> s[i] != ':'
  }

  /** `parts.join(":")` */
  function Join(parts: seq<string>): string {
    if parts == [] then ""
    else if |parts| == 1 then parts[0]
    else parts[0] + ":" + Join(parts[1..])
  }

  function ScopeKey(systemId: string, parts: seq<string>): Option<string> {
    if IsSystemId(systemId) then Some(Join([systemId] + parts)) else None
  }

  function WorkspaceScopeKey(systemId: string, workspaceId: string, parts: seq<string>): Option<string> {
    if IsSystemId(systemId) && IsWorkspaceId(workspaceId) then Some(Join([systemId, workspaceId] + parts)) else None
  }

  // ---------- Parts can be read back ----------

  function FirstColon(s: string): nat {
    if s == "" || s[0] == ':' then 0 else 1 + FirstColon(s[1..])
  }

  function LastColon(s: string): nat {
    if s == "" then 0
    else if s[|s| - 1] == ':' then |s| - 1
    else LastColon(s[..|s| - 1])
  }

  lemma {:induction false} FirstColonAfter(a: string, x: string)
    requires NoColon(a)
    ensures FirstColon(a + ":" + x) == |a|
  {
    if a != "" {
      FirstColonAfter(a[1..], x);
      assert (a + ":" + x)[1..] == a[1..] + ":" + x;
    }
  }

  lemma {:induction false} LastColonBefore(x: string, a: string)
    requires NoColon(a)
    ensures LastColon(x + ":" + a) == |x|
    decreases |a|
  {
    var s := x + ":" + a;
    if a != "" {
      LastColonBefore(x, a[..|a| - 1]);
      assert s[..|s| - 1] == x + ":" + a[..|a| - 1];
    }
  }

  lemma FirstPart(a: string, x: string, b: string, y: string)
    requires NoColon(a) && NoColon(b) && a + ":" + x == b + ":" + y
    ensures a == b && x == y
  {
    FirstColonAfter(a, x);
    FirstColonAfter(b, y);
    var s := a + ":" + x;
    assert a == s[..|a|] && b == s[..|a|] && x == s[|a| + 1..] && y == s[|a| + 1..];
  }

  lemma LastPart(x: string, a: string, y: string, b: string)
    requires NoColon(a) && NoColon(b) && x + ":" + a == y + ":" + b
    ensures a == b && x == y
  {
    LastColonBefore(x, a);
    LastColonBefore(y, b);
    var s := x + ":" + a;
    assert x == s[..|x|] && y == s[..|x|] && a == s[|x| + 1..] && b == s[|x| + 1..];
  }

  lemma SlugHasNoColon(id: string)
    requires IsSystemId(id) || IsWorkspaceId(id)
    ensures NoColon(id)
  {
    forall i | 0 <= i < |id|
      ensures id[i] != ':'
    {
      assert IsLowerOrDigit(id[i]) || id[i] == '-';
    }
  }

  ghost predicate AllNoColon(parts: seq<string>) {
    forall i :: 0 <= i < |parts| ==> NoColon(parts[i])
  }

  lemma {:induction false} JoinLastPart(parts: seq<string>, last: string)
    requires parts != []
    ensures Join(parts + [last]) == Join(parts) + ":" + last
  {
    if |parts| > 1 {
      JoinLastPart(parts[1..], last);
      assert (parts + [last])[1..] == parts[1..] + [last];
    } else {
      assert (parts + [last])[1..] == [last];
    }
  }

  /** Keys act like tuples as long as one part at most may contain colons. */
  lemma {:induction false} KeysAreTuples(front: seq<string>, free: string, back: seq<string>,
                                         front': seq<string>, free': string, back': seq<string>)
    requires |front| == |front'| && |back| == |back'|
    requires AllNoColon(front) && AllNoColon(front') && AllNoColon(back) && AllNoColon(back')
    requires Join(front + [free] + back) == Join(front' + [free'] + back')
    ensures front == front' && free == free' && back == back'
    decreases |front| + |back|
  {
    var parts, parts' := front + [free] + back, front' + [free'] + back';
    if back != [] {
      var n := |back| - 1;
      assert parts == (front + [free] + back[..n]) + [back[n]];
      assert parts' == (front' + [free'] + back'[..n]) + [back'[n]];
      JoinLastPart(front + [free] + back[..n], back[n]);
      JoinLastPart(front' + [free'] + back'[..n], back'[n]);
      LastPart(Join(front + [free] + back[..n]), back[n], Join(front' + [free'] + back'[..n]), back'[n]);
      KeysAreTuples(front, free, back[..n], front', free', back'[..n]);
      assert back == back[..n] + [back[n]] && back' == back'[..n] + [back'[n]];
    } else if front != [] {
      assert parts[1..] == front[1..] + [free] + back && parts'[1..] == front'[1..] + [free'] + back';
      FirstPart(front[0], Join(parts[1..]), front'[0], Join(parts'[1..]));
      KeysAreTuples(front[1..], free, back, front'[1..], free', back');
      assert front == [front[0]] + front[1..] && front' == [front'[0]] + front'[1..];
    } else {
      assert parts == [free] && parts' == [free'];
    }
  }

  /** With two free parts they do not. */
  lemma TwoFreePartsCollide()
    ensures exists a: seq<string>, b: seq<string> :: |a| == |b| == 3 && a != b && a[0] == b[0] && Join(a) == Join(b)
  {
    var a, b := ["s", "x:y", "z"], ["s", "x", "y:z"];
    assert a[1..] == ["x:y", "z"] && a[1..][1..] == ["z"];
    assert b[1..] == ["x", "y:z"] && b[1..][1..] == ["y:z"];
    assert Join(a) == "s" + ":" + ("x:y" + ":" + "z");
    assert Join(b) == "s" + ":" + ("x" + ":" + "y:z");
    assert Join(a) == "s:x:y:z" == Join(b);
    assert a[1] == "x:y" && b[1] == "x" && |a[1]| != |b[1]|;
  }
}
