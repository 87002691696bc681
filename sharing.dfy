/** The request `get_share_task_id` sends (quark.py:507-523), the stored
    configuration `init_config` keeps (quark.py:450-467), and the menu
    choices that feed `share_run` (quark.py:842-857). */
module Sharing {
  import opened Wrappers
  import opened Text
  import opened Utils
  import opened ShareLink

  /** The body of the share request. */
  datatype SharePayload = SharePayload(
    fidList: seq<string>, title: string, urlType: int, expiredType: int,
    passcode: Option<string>)

  /** `get_share_task_id(fid, file_name, url_type, expired_type, password)`:
      a passcode is sent only for an encrypted link (`url_type == 2`); it is
      the caller's password, or a fresh 4-character code when that is empty.
      `draw` is the random generator. */
  function SharePayloadOf(fid: string, fileName: string, urlType: int, expiredType: int,
                          password: string, draw: nat -> nat): (p: SharePayload)
    ensures p.fidList == [fid] && p.title == fileName
    ensures p.urlType == urlType && p.expiredType == expiredType
    ensures p.passcode.Some? <==> urlType == 2
    ensures urlType == 2 && password != "" ==> p.passcode == Some(password)
    ensures urlType == 2 && password == "" ==>
      |p.passcode.value| == DefaultCodeLength
      && forall i :: 0 <= i < |p.passcode.value| ==> IsAsciiAlnum(p.passcode.value[i])
  {
    var passcode :=
      if urlType != 2 then None
      else if password != "" then Some(password)
      else Some(GenerateRandomCode(DefaultCodeLength, draw));
    SharePayload([fid], fileName, urlType, expiredType, passcode)
  }

  /** An encrypted share with a generated code: when the server echoes the
      passcode, the link `submit_share` builds carries it, and `run` reads
      the same code back from that link. */
  lemma GeneratedPasscodeRoundTrip(fid: string, fileName: string, expiredType: int,
                                   draw: nat -> nat, shareUrl: string)
    requires !Contains(shareUrl, "pwd=")
    ensures var p := SharePayloadOf(fid, fileName, 2, expiredType, "", draw);
      ExtractPassword(ShareUrlWithPasscode(shareUrl, p.passcode)) == p.passcode.value
  {
    var p := SharePayloadOf(fid, fileName, 2, expiredType, "", draw);
    var code := p.passcode.value;
    assert '&' !in code && '\n' !in code by {
      forall i | 0 <= i < |code| ensures code[i] != '&' && code[i] != '\n' {
        assert IsAsciiAlnum(code[i]);
      }
    }
    PasswordRoundTrip(shareUrl, code);
  }

  /** The folder name `init_config` falls back to. */
  const RootName: string := "direktori akar"
  const RootId: string := "0"
  const DefaultUser: string := "jack"

  /** The state of `config.json`: absent, not valid JSON, or a JSON object
      (its string-valued keys). */
  datatype ConfigFile = Missing | Malformed | Json(obj: map<string, string>)

  /** The stored configuration `{user, pdir_id, dir_name}`. */
  datatype Config = Config(user: string, pdirId: string, dirName: string)

  function ConfigObject(c: Config): map<string, string>
  {
    map["user" := c.user, "pdir_id" := c.pdirId, "dir_name" := c.dirName]
  }

  function Lookup(obj: map<string, string>, key: string, default: string): string
  {
    if key in obj then obj[key] else default
  }

  /** What `init_config(_user, _pdir_id, _dir_name)` returns, and the
      configuration it writes, if any. `current` is the object's own
      `user`, `pdir_id` and `dir_name`, written when the file is missing or
      malformed. */
  datatype InitResult = InitResult(result: Config, written: Option<Config>)

  function InitConfig(given: Config, current: Config, file: ConfigFile): (r: InitResult)
    ensures r.result.user == given.user
    ensures file.Missing? || file.Malformed? ==> r == InitResult(given, Some(current))
    ensures file.Json? && file.obj == map[] ==> r == InitResult(given, None)
    ensures file.Json? && file.obj != map[] && Lookup(file.obj, "user", DefaultUser) != given.user ==>
      r.result == Config(given.user, RootId, RootName) && r.written == Some(r.result)
    ensures file.Json? && file.obj != map[] && Lookup(file.obj, "user", DefaultUser) == given.user ==>
      r.written.None?
      && r.result.pdirId == Lookup(file.obj, "pdir_id", RootId)
      && r.result.dirName == Lookup(file.obj, "dir_name", RootName)
  {
    match file
    case Missing => InitResult(given, Some(current))
    case Malformed => InitResult(given, Some(current))
    case Json(obj) =>
      if obj == map[] then InitResult(given, None)
      else if Lookup(obj, "user", DefaultUser) != given.user then
        var reset := Config(given.user, RootId, RootName);
        InitResult(reset, Some(reset))
      else InitResult(Config(given.user, Lookup(obj, "pdir_id", RootId), Lookup(obj, "dir_name", RootName)), None)
  }

  /** After a change of user resets the target to the root folder, the next
      start with the same user keeps the root folder and writes nothing. */
  lemma UserChangeSettles(given: Config, current: Config, file: ConfigFile, next: Config, current': Config)
    requires file.Json? && file.obj != map[] && Lookup(file.obj, "user", DefaultUser) != given.user
    requires next.user == given.user
    ensures var first := InitConfig(given, current, file);
      InitConfig(next, current', Json(ConfigObject(first.written.value)))
        == InitResult(Config(given.user, RootId, RootName), None)
  {
    var first := InitConfig(given, current, file);
    var obj := ConfigObject(first.written.value);
    assert "user" in obj && obj["user"] == given.user;
    assert "pdir_id" in obj && obj["pdir_id"] == RootId;
    assert "dir_name" in obj && obj["dir_name"] == RootName;
  }

  /** The same user finds back what was stored for them. */
  lemma StoredConfigReadBack(stored: Config, given: Config, current: Config)
    requires given.user == stored.user
    ensures InitConfig(given, current, Json(ConfigObject(stored))) == InitResult(stored, None)
  {
    var obj := ConfigObject(stored);
    assert "user" in obj && obj["user"] == stored.user;
    assert "pdir_id" in obj && obj["pdir_id"] == stored.pdirId;
    assert "dir_name" in obj && obj["dir_name"] == stored.dirName;
  }

  /** The menu's expiry choice: `1`..`4` select 2, 3, 4 and 1 (one day,
      seven days, thirty days, permanent); anything else selects 4. */
  function ExpiredTypeFor(option: string): (t: int)
    ensures 1 <= t <= 4
    ensures option !in {"1", "2", "3", "4"} ==> t == 4
    ensures option == "1" ==> t == 2
    ensures option == "2" ==> t == 3
    ensures option == "3" ==> t == 4
    ensures t == 1 <==> option == "4"
  {
    var expiredOption := map["1" := 2, "2" := 3, "3" := 4, "4" := 1];
    if option in expiredOption then expiredOption[option] else 4
  }

  /** The menu's encryption choice: `2` asks for an encrypted link. */
  function UrlTypeFor(isPrivate: string): (t: int)
    ensures t == 1 || t == 2
    ensures t == 2 <==> isPrivate == "2"
  {
    if isPrivate == "2" then 2 else 1
  }

  /** The menu's depth choice: `1` or `2`, otherwise 0. */
  function TraverseDepthFor(option: string): (d: int)
    ensures d == 0 || d == 1 || d == 2
    ensures d == 1 <==> option == "1"
    ensures d == 2 <==> option == "2"
  {
    if option == "1" then 1 else if option == "2" then 2 else 0
  }
}
