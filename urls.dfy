/** The three RPC addresses of the meter, built once at start-up by
    `_getShellyStatusUrl` (dbus-shelly-pro-3em-pvinverter.py:129-148): a
    credential template `http://<user>:<password>@<host>/rpc/<Method>?id=0`
    from which every ":@" is then removed. */
module Urls {
  import opened Text

  const StatusMethod := "EM.GetStatus"
  const ConfigMethod := "Sys.GetConfig"
  const EnergyMethod := "EMData.GetStatus"

  /** The pattern the builder strips: what an empty password leaves behind. */
  const EmptyCredentials := ":@"

  datatype ShellyUrls = ShellyUrls(status: string, config: string, energy: string)

  function RpcTail(rpc: string): string {
    "/rpc/" + rpc + "?id=0"
  }

  /** The URL before the ":@" removal. */
  function Template(user: string, password: string, host: string, rpc: string): string {
    "http://" + user + ":" + password + "@" + host + RpcTail(rpc)
  }

  /** One address as the source builds it. */
  function RpcUrl(user: string, password: string, host: string, rpc: string): string {
    ReplaceAll(Template(user, password, host, rpc), EmptyCredentials, "")
  }

  /** `_getShellyStatusUrl`: status, configuration and energy addresses.
      Without credentials they are plain `http://<host>/rpc/...` addresses;
      with a password the template survives the removal verbatim; a user
      with an empty password loses the ":@" and is glued onto the host. */
  function BuildUrls(user: string, password: string, host: string): (u: ShellyUrls)
    ensures user == [] && password == [] && !Contains(host, EmptyCredentials) ==>
      u == ShellyUrls(
        "http://" + host + "/rpc/EM.GetStatus?id=0",
        "http://" + host + "/rpc/Sys.GetConfig?id=0",
        "http://" + host + "/rpc/EMData.GetStatus?id=0")
    ensures WithPassword(user, password, host) ==>
      u == ShellyUrls(
        Template(user, password, host, StatusMethod),
        Template(user, password, host, ConfigMethod),
        Template(user, password, host, EnergyMethod))
    ensures UserOnly(user, password, host) ==>
      u == ShellyUrls(
        "http://" + user + host + "/rpc/EM.GetStatus?id=0",
        "http://" + user + host + "/rpc/Sys.GetConfig?id=0",
        "http://" + user + host + "/rpc/EMData.GetStatus?id=0")
  {
    var u := ShellyUrls(RpcUrl(user, password, host, StatusMethod),
                        RpcUrl(user, password, host, ConfigMethod),
                        RpcUrl(user, password, host, EnergyMethod));
    if user == [] && password == [] && !Contains(host, EmptyCredentials) then
      UrlsWithoutCredentials(host); u
    else if WithPassword(user, password, host) then
      UrlsWithPassword(user, password, host); u
    else if UserOnly(user, password, host) then
      UrlsOfUserOnly(user, host); u
    else u
  }

  /** A password is set, and no field makes a stray ":@". */
  predicate WithPassword(user: string, password: string, host: string) {
    && password != [] && password[0] != '@' && password[|password| - 1] != ':'
    && !Contains(user, EmptyCredentials)
    && !Contains(password, EmptyCredentials)
    && !Contains(host, EmptyCredentials)
  }

  /** A username with an empty password, and no field makes a stray ":@". */
  predicate UserOnly(user: string, password: string, host: string) {
    && user != [] && password == []
    && !Contains(user, EmptyCredentials)
    && !Contains(host, EmptyCredentials)
  }

  /** ":@" starts at index `i` of `s`. */
  predicate ColonAt(s: string, i: int) {
    0 <= i < |s| - 1 && s[i] == ':' && s[i + 1] == '@'
  }

  lemma OccursAtIsColonAt(s: string, i: int)
    ensures OccursAt(s, EmptyCredentials, i) <==> ColonAt(s, i)
  {
    if ColonAt(s, i) {
      assert s[i..i + 2] == EmptyCredentials;
    }
    if OccursAt(s, EmptyCredentials, i) {
      assert s[i..i + 2][0] == ':' && s[i..i + 2][1] == '@';
    }
  }

  /** A string with no ':' directly before a '@' holds no ":@". */
  lemma FreeWithoutColonAt(s: string)
    requires forall i :: !ColonAt(s, i)
    ensures !Contains(s, EmptyCredentials)
  {
    forall i | 0 <= i <= |s| ensures !OccursAt(s, EmptyCredentials, i) {
      OccursAtIsColonAt(s, i);
    }
  }

  /** Two strings free of ":@" stay free of it when joined, unless the join
      itself puts a ':' right before a '@'. */
  lemma ConcatFree(a: string, b: string)
    requires !Contains(a, EmptyCredentials) && !Contains(b, EmptyCredentials)
    requires !(a != [] && b != [] && a[|a| - 1] == ':' && b[0] == '@')
    ensures !Contains(a + b, EmptyCredentials)
  {
    forall i | 0 <= i <= |a + b| ensures !OccursAt(a + b, EmptyCredentials, i) {
      OccursAtIsColonAt(a + b, i);
      OccursAtIsColonAt(a, i);
      OccursAtIsColonAt(b, i - |a|);
    }
  }

  /** The fixed parts of every address hold no ':' at all. */
  lemma FixedPartsFree(rpc: string)
    requires rpc in {StatusMethod, ConfigMethod, EnergyMethod}
    ensures !Contains("http://", EmptyCredentials)
    ensures !Contains(RpcTail(rpc), EmptyCredentials)
    ensures RpcTail(rpc)[0] == '/'
  {
    FreeWithoutColonAt("http://");
    FreeWithoutColonAt(RpcTail(rpc));
  }

  /** The removal scan copies `prefix` through when no ":@" starts in it,
      counting the character that follows it. */
  lemma CopyFree(prefix: string, rest: string)
    requires !Contains(prefix, EmptyCredentials)
    requires !(prefix != [] && rest != [] && prefix[|prefix| - 1] == ':' && rest[0] == '@')
    ensures ReplaceAll(prefix + rest, EmptyCredentials, "") == prefix + ReplaceAll(rest, EmptyCredentials, "")
  {
    forall i | 0 <= i < |prefix| ensures !OccursAt(prefix + rest, EmptyCredentials, i) {
      OccursAtIsColonAt(prefix + rest, i);
      OccursAtIsColonAt(prefix, i);
    }
    ReplaceAllCopiesPrefix(prefix, rest, EmptyCredentials, "");
  }

  /** With no username and no password the credentials vanish entirely:
      `http://<host>/rpc/<Method>?id=0`. */
  lemma UrlWithoutCredentials(host: string, rpc: string)
    requires rpc in {StatusMethod, ConfigMethod, EnergyMethod}
    requires !Contains(host, EmptyCredentials)
    ensures RpcUrl("", "", host, rpc) == "http://" + host + RpcTail(rpc)
  {
    var tail := RpcTail(rpc);
    var t1 := host + tail;
    var t2 := EmptyCredentials + t1;
    calc {
      RpcUrl("", "", host, rpc);
      { assert Template("", "", host, rpc) == "http://" + t2; }
      ReplaceAll("http://" + t2, EmptyCredentials, "");
      { FixedPartsFree(rpc); CopyFree("http://", t2); }
      "http://" + ReplaceAll(t2, EmptyCredentials, "");
      { ReplaceAllAtFront(t1, EmptyCredentials, ""); }
      "http://" + ("" + ReplaceAll(t1, EmptyCredentials, ""));
      { FixedPartsFree(rpc); ConcatFree(host, tail); ReplaceAllAbsent(t1, EmptyCredentials, ""); }
      "http://" + ("" + t1);
    }
  }

  /** With a password set, and no stray ":@" in or between the fields, the
      removal finds nothing and the credentials are kept verbatim. */
  lemma UrlWithPassword(user: string, password: string, host: string, rpc: string)
    requires rpc in {StatusMethod, ConfigMethod, EnergyMethod}
    requires password != [] && password[0] != '@' && password[|password| - 1] != ':'
    requires !Contains(user, EmptyCredentials)
    requires !Contains(password, EmptyCredentials)
    requires !Contains(host, EmptyCredentials)
    ensures RpcUrl(user, password, host, rpc) == Template(user, password, host, rpc)
  {
    var tail := RpcTail(rpc);
    FixedPartsFree(rpc);
    FreeWithoutColonAt("@");
    FreeWithoutColonAt(":");
    var t1 := host + tail;
    var t2 := "@" + t1;
    var t3 := password + t2;
    var t4 := ":" + t3;
    var t5 := user + t4;
    ConcatFree(host, tail);
    ConcatFree("@", t1);
    ConcatFree(password, t2);
    ConcatFree(":", t3);
    ConcatFree(user, t4);
    ConcatFree("http://", t5);
    assert Template(user, password, host, rpc) == "http://" + t5;
    ReplaceAllAbsent(Template(user, password, host, rpc), EmptyCredentials, "");
  }

  /** As written, a username with an empty password also leaves ":@"
      behind, and its removal takes the '@' that separates the user from the
      host: the user name is glued onto the host name. */
  lemma UserWithoutPasswordMergesIntoHost(user: string, host: string, rpc: string)
    requires rpc in {StatusMethod, ConfigMethod, EnergyMethod}
    requires user != [] && !Contains(user, EmptyCredentials)
    requires !Contains(host, EmptyCredentials)
    ensures RpcUrl(user, "", host, rpc) == "http://" + user + host + RpcTail(rpc)
  {
    var tail := RpcTail(rpc);
    var t1 := host + tail;
    var t2 := EmptyCredentials + t1;
    var prefix := "http://" + user;
    calc {
      RpcUrl(user, "", host, rpc);
      { assert Template(user, "", host, rpc) == prefix + t2; }
      ReplaceAll(prefix + t2, EmptyCredentials, "");
      { FixedPartsFree(rpc); ConcatFree("http://", user); CopyFree(prefix, t2); }
      prefix + ReplaceAll(t2, EmptyCredentials, "");
      { ReplaceAllAtFront(t1, EmptyCredentials, ""); }
      prefix + ("" + ReplaceAll(t1, EmptyCredentials, ""));
      { FixedPartsFree(rpc); ConcatFree(host, tail); ReplaceAllAbsent(t1, EmptyCredentials, ""); }
      prefix + ("" + t1);
    }
  }

  /** So the source's address differs from the intended one: it is two
      characters short, the ':' and the '@'. */
  lemma UserWithoutPasswordDiffersFromIntended(user: string, host: string, rpc: string)
    requires rpc in {StatusMethod, ConfigMethod, EnergyMethod}
    requires user != [] && !Contains(user, EmptyCredentials)
    requires !Contains(host, EmptyCredentials)
    ensures |RpcUrl(user, "", host, rpc)| + 2 == |IntendedRpcUrl(user, "", host, rpc)|
  {
    UserWithoutPasswordMergesIntoHost(user, host, rpc);
  }

  /** The evident intent: drop the credentials only when both are empty, so
      that the host is always preceded by "//" or by the '@' that ends the
      credentials, and the host and path are copied intact. */
  function IntendedRpcUrl(user: string, password: string, host: string, rpc: string): (url: string)
    ensures |url| > |host| + |RpcTail(rpc)|
    ensures url[|url| - |host| - |RpcTail(rpc)|..] == host + RpcTail(rpc)
    ensures url[|url| - |host| - |RpcTail(rpc)| - 1]
         == (if user == [] && password == [] then '/' else '@')
    ensures url[..7] == "http://"
  {
    if user == [] && password == [] then "http://" + host + RpcTail(rpc)
    else Template(user, password, host, rpc)
  }

  /** The corrected builder agrees with the source wherever the source's
      result is sound: no credentials at all, or a password is set. */
  lemma IntendedAgreesWithSource(user: string, password: string, host: string, rpc: string)
    requires rpc in {StatusMethod, ConfigMethod, EnergyMethod}
    requires !Contains(user, EmptyCredentials)
    requires !Contains(password, EmptyCredentials)
    requires !Contains(host, EmptyCredentials)
    requires password != [] ==> password[0] != '@' && password[|password| - 1] != ':'
    requires user == [] || password != []
    ensures RpcUrl(user, password, host, rpc) == IntendedRpcUrl(user, password, host, rpc)
  {
    if password == [] {
      UrlWithoutCredentials(host, rpc);
    } else {
      UrlWithPassword(user, password, host, rpc);
    }
  }

  /** The path parts of the three addresses, written out. */
  lemma Tails()
    ensures RpcTail(StatusMethod) == "/rpc/EM.GetStatus?id=0"
    ensures RpcTail(ConfigMethod) == "/rpc/Sys.GetConfig?id=0"
    ensures RpcTail(EnergyMethod) == "/rpc/EMData.GetStatus?id=0"
  {
  }

  /** The three addresses of a meter without authentication. */
  lemma UrlsWithoutCredentials(host: string)
    requires !Contains(host, EmptyCredentials)
    ensures RpcUrl("", "", host, StatusMethod) == "http://" + host + "/rpc/EM.GetStatus?id=0"
    ensures RpcUrl("", "", host, ConfigMethod) == "http://" + host + "/rpc/Sys.GetConfig?id=0"
    ensures RpcUrl("", "", host, EnergyMethod) == "http://" + host + "/rpc/EMData.GetStatus?id=0"
  {
    Tails();
    UrlWithoutCredentials(host, StatusMethod);
    UrlWithoutCredentials(host, ConfigMethod);
    UrlWithoutCredentials(host, EnergyMethod);
  }

  /** The three addresses when a password is set. */
  lemma UrlsWithPassword(user: string, password: string, host: string)
    requires WithPassword(user, password, host)
    ensures RpcUrl(user, password, host, StatusMethod) == Template(user, password, host, StatusMethod)
    ensures RpcUrl(user, password, host, ConfigMethod) == Template(user, password, host, ConfigMethod)
    ensures RpcUrl(user, password, host, EnergyMethod) == Template(user, password, host, EnergyMethod)
  {
    UrlWithPassword(user, password, host, StatusMethod);
    UrlWithPassword(user, password, host, ConfigMethod);
    UrlWithPassword(user, password, host, EnergyMethod);
  }

  /** The three addresses of a user with an empty password. */
  lemma UrlsOfUserOnly(user: string, host: string)
    requires UserOnly(user, "", host)
    ensures RpcUrl(user, "", host, StatusMethod) == "http://" + user + host + "/rpc/EM.GetStatus?id=0"
    ensures RpcUrl(user, "", host, ConfigMethod) == "http://" + user + host + "/rpc/Sys.GetConfig?id=0"
    ensures RpcUrl(user, "", host, EnergyMethod) == "http://" + user + host + "/rpc/EMData.GetStatus?id=0"
  {
    Tails();
    UserWithoutPasswordMergesIntoHost(user, host, StatusMethod);
    UserWithoutPasswordMergesIntoHost(user, host, ConfigMethod);
    UserWithoutPasswordMergesIntoHost(user, host, EnergyMethod);
  }
}
