/** The WiFi station layer: a status, a retry counter and the dotted IP string,
    updated by the SDK's event handler (each invocation one atomic step) and by
    connect/disconnect. SDK calls, event-group bits and callback invocations are
    recorded as ghost effects; SDK results are parameters. */
module WifiHal {
  import opened Esp

  datatype WifiStatus = Disconnected | Connecting | Connected | Failed

  /** Disconnections tolerated before the handler gives up. */
  const MaxRetry := 5

  /** Size of `s_ip_address`, terminator included. */
  const IpBufferSize := 16
  /** Sizes of the `ssid` and `password` fields of the station configuration. */
  const SsidBufferSize := 32
  const PasswordBufferSize := 64

  /** The events the handler is registered for; `OtherEvent` is any other WiFi event id. */
  datatype WifiEvent = StaStart | StaDisconnected | GotIp(a: Uint8, b: Uint8, c: Uint8, d: Uint8) | OtherEvent

  datatype Effect =
    | WifiConnectCall
    | WifiDisconnectCall
    | SetFailBit
    | SetConnectedBit
    | Notify(status: WifiStatus, ip: Option<string>)
    | SetConfig(ssid: string, password: string)
    | WifiStart

  /** `strncpy`/`snprintf` into a buffer that keeps room for the terminator. */
  function Truncate(s: string, n: nat): (r: string)
    ensures |r| <= n && r <= s
    ensures |r| == if |s| <= n then |s| else n
  {
    if |s| <= n then s else s[..n]
  }

  function DigitChar(d: int): char
    requires 0 <= d < 10
  {
    ('0' as int + d) as char
  }

  function DigitValue(ch: char): int
  {
    if '0' <= ch <= '9' then ch as int - '0' as int else 0
  }

  /** `%d` of a byte: one to three decimal digits, no leading zero. */
  function Decimal(n: Uint8): (s: string)
    ensures 1 <= |s| <= 3
    ensures forall i :: 0 <= i < |s| ==> '0' <= s[i] <= '9'
    ensures |s| > 1 ==> s[0] != '0'
  {
    if n < 10 then [DigitChar(n)]
    else if n < 100 then [DigitChar(n / 10), DigitChar(n % 10)]
    else [DigitChar(n / 100), DigitChar((n / 10) % 10), DigitChar(n % 10)]
  }

  /** The number a string of decimal digits denotes. */
  function DecimalValue(s: string): int
  {
    if s == [] then 0 else DecimalValue(s[..|s| - 1]) * 10 + DigitValue(s[|s| - 1])
  }

  /** Printing a byte in decimal and reading it back gives the byte. */
  lemma DecimalRoundTrip(n: Uint8)
    ensures DecimalValue(Decimal(n)) == n
  {
    var s := Decimal(n);
    if n < 10 {
      assert s[..0] == [];
    } else if n < 100 {
      assert s[..1][..0] == [];
      assert DecimalValue(s[..1]) == n / 10;
    } else {
      assert s[..2][..1][..0] == [];
      assert DecimalValue(s[..2][..1]) == n / 100;
      assert DecimalValue(s[..2]) == (n / 100) * 10 + (n / 10) % 10 == n / 10;
    }
  }

  /** `IPSTR`: four decimal bytes joined by dots; at most 15 characters, so
      it fits the 16-byte buffer with its terminator, and never empty. */
  function FormatIp(a: Uint8, b: Uint8, c: Uint8, d: Uint8): (s: string)
    ensures 7 <= |s| <= IpBufferSize - 1
  {
    Decimal(a) + "." + Decimal(b) + "." + Decimal(c) + "." + Decimal(d)
  }

  /** The driver's state as a value. */
  datatype WifiState = WifiState(status: WifiStatus, retry: int, ip: string)

  /** What always holds of the state: the retry counter within its bound, the
      IP within its buffer, and an address recorded whenever connected. */
  ghost predicate Inv(st: WifiState)
  {
    0 <= st.retry <= MaxRetry && |st.ip| <= IpBufferSize - 1 &&
    (st.status == Connected ==> st.ip != "")
  }

  /** `event_handler` on the state: only GOT_IP connects, and only a
      disconnection past the retry bound fails; other events leave the state alone. */
  function Handle(st: WifiState, e: WifiEvent): (r: WifiState)
    ensures e == OtherEvent ==> r == st
    ensures e != OtherEvent ==> (r.status == Connected <==> e.GotIp?)
    ensures e != OtherEvent ==> (r.status == Failed <==> e.StaDisconnected? && st.retry >= MaxRetry)
    ensures !e.GotIp? ==> r.ip == st.ip && r.retry >= st.retry
  {
    match e
    case StaStart => st.(status := Connecting)
    case StaDisconnected =>
      if st.retry < MaxRetry then st.(retry := st.retry + 1, status := Connecting)
      else st.(status := Failed)
    case GotIp(a, b, c, d) => WifiState(Connected, 0, Truncate(FormatIp(a, b, c, d), IpBufferSize - 1))
    case OtherEvent => st
  }

  /** `event_handler`'s effects; the callback is called only when registered. */
  function HandleEffects(st: WifiState, e: WifiEvent, notify: bool): seq<Effect>
  {
    var st' := Handle(st, e);
    var note := if notify then [Notify(st'.status, if e.GotIp? then Some(st'.ip) else None)] else [];
    match e
    case StaStart => [WifiConnectCall] + note
    case StaDisconnected => (if st.retry < MaxRetry then [WifiConnectCall] else [SetFailBit]) + note
    case GotIp(_, _, _, _) => [SetConnectedBit] + note
    case OtherEvent => []
  }

  /** Every event keeps the invariant. */
  lemma HandleKeepsInv(st: WifiState, e: WifiEvent)
    requires Inv(st)
    ensures Inv(Handle(st, e))
  {
  }

  /** A got-IP event records exactly the dotted address, untruncated. */
  lemma GotIpStoresAddress(st: WifiState, a: Uint8, b: Uint8, c: Uint8, d: Uint8)
    ensures Handle(st, GotIp(a, b, c, d)) == WifiState(Connected, 0, FormatIp(a, b, c, d))
  {
  }

  /** The state after n events e in a row. */
  function Repeat(st: WifiState, e: WifiEvent, n: nat): WifiState
  {
    if n == 0 then st else Handle(Repeat(st, e, n - 1), e)
  }

  /** After k >= 1 disconnections in a row the counter is min(retry + k, 5);
      the driver keeps connecting while that stays within the bound and has
      failed once the bound is passed. */
  lemma {:induction false} DisconnectRun(st: WifiState, k: nat)
    requires 0 <= st.retry <= MaxRetry && k >= 1
    ensures var st' := Repeat(st, StaDisconnected, k);
      st'.retry == (if st.retry + k <= MaxRetry then st.retry + k else MaxRetry) &&
      st'.status == (if st.retry + k <= MaxRetry then Connecting else Failed) &&
      st'.ip == st.ip
  {
    if k > 1 {
      DisconnectRun(st, k - 1);
    }
  }

  /** From a fresh connect, five disconnections are retried and the sixth fails. */
  lemma SixthDisconnectFails(ip: string, status: WifiStatus)
    ensures Repeat(WifiState(status, 0, ip), StaDisconnected, 5).status == Connecting
    ensures Repeat(WifiState(status, 0, ip), StaDisconnected, 6) == WifiState(Failed, MaxRetry, ip)
  {
    DisconnectRun(WifiState(status, 0, ip), 5);
    DisconnectRun(WifiState(status, 0, ip), 6);
  }

  class Wifi {
    /** `s_wifi_status`, `s_retry_num`, `s_ip_address`, `s_status_callback` */
    var status: WifiStatus
    var retryNum: int
    var ipAddress: string
    var callback: Option<nat>
    ghost var effects: seq<Effect>

    function State(): WifiState
      reads this
    {
      WifiState(status, retryNum, ipAddress)
    }

    ghost predicate Valid()
      reads this
    {
      Inv(State())
    }

    constructor ()
      ensures Valid() && State() == WifiState(Disconnected, 0, "") && callback == None && effects == []
    {
      status, retryNum, ipAddress, callback := Disconnected, 0, "", None;
      effects := [];
    }

    /** `event_handler`: one atomic step of `Handle`. */
    method EventHandler(e: WifiEvent)
      requires Valid()
      modifies this
      ensures Valid()
      ensures State() == Handle(old(State()), e) && callback == old(callback)
      ensures effects == old(effects) + HandleEffects(old(State()), e, callback.Some?)
    {
      ghost var st := State();
      match e {
        case StaStart =>
          effects := effects + [WifiConnectCall];
          status := Connecting;
          if callback.Some? {
            effects := effects + [Notify(status, None)];
          }
        case StaDisconnected =>
          if retryNum < MaxRetry {
            effects := effects + [WifiConnectCall];
            retryNum := retryNum + 1;
            status := Connecting;
          } else {
            effects := effects + [SetFailBit];
            status := Failed;
          }
          if callback.Some? {
            effects := effects + [Notify(status, None)];
          }
        case GotIp(a, b, c, d) =>
          ipAddress := Truncate(FormatIp(a, b, c, d), IpBufferSize - 1);
          retryNum := 0;
          status := Connected;
          effects := effects + [SetConnectedBit];
          if callback.Some? {
            effects := effects + [Notify(status, Some(ipAddress))];
          }
        case OtherEvent =>
      }
      HandleKeepsInv(st, e);
    }

    /** `wifi_hal_connect`: a NULL SSID changes nothing; otherwise the callback
        is stored, the counter reset, and the credentials copied truncated to
        their buffers before the station is started. */
    method Connect(ssid: Option<string>, password: Option<string>, cb: Option<nat>) returns (r: EspErr)
      requires Valid()
      modifies this
      ensures Valid()
      ensures ssid == None ==> (r == EspErrInvalidArg && State() == old(State()) &&
        callback == old(callback) && effects == old(effects))
      ensures ssid != None ==> (r == EspOk && callback == cb &&
        State() == old(State()).(retry := 0) &&
        effects == old(effects) + [SetConfig(Truncate(ssid.value, SsidBufferSize - 1),
          if password.Some? then Truncate(password.value, PasswordBufferSize - 1) else ""), WifiStart])
    {
      if ssid == None {
        return EspErrInvalidArg;
      }
      callback := cb;
      retryNum := 0;
      var ssidCopy := Truncate(ssid.value, SsidBufferSize - 1);
      var passwordCopy := "";
      if password.Some? {
        passwordCopy := Truncate(password.value, PasswordBufferSize - 1);
      }
      effects := effects + [SetConfig(ssidCopy, passwordCopy), WifiStart];
      r := EspOk;
    }

    /** `wifi_hal_disconnect`: on success the status is Disconnected, the IP
        cleared and the callback told; on failure only the error comes back. */
    method Disconnect(sdkResult: EspErr) returns (r: EspErr)
      requires Valid()
      modifies this
      ensures Valid() && r == sdkResult && callback == old(callback) && retryNum == old(retryNum)
      ensures sdkResult == EspOk ==> (status == Disconnected && ipAddress == "" &&
        effects == old(effects) + [WifiDisconnectCall] + (if callback.Some? then [Notify(Disconnected, None)] else []))
      ensures sdkResult != EspOk ==> State() == old(State()) && effects == old(effects) + [WifiDisconnectCall]
    {
      effects := effects + [WifiDisconnectCall];
      r := sdkResult;
      if r == EspOk {
        status := Disconnected;
        ipAddress := "";
        if callback.Some? {
          effects := effects + [Notify(status, None)];
        }
      }
    }

    /** `wifi_hal_get_ip_address`. The buffer is the caller's; on failure it is
        left as it was, on success it holds the address. */
    function GetIpAddress(buf: Option<string>): (res: (EspErr, Option<string>))
      reads this
      ensures buf == None ==> res.0 == EspErrInvalidArg
      ensures buf != None ==> (res.0 == EspErrInvalidState <==> status != Connected || ipAddress == "")
      ensures res.0 == EspOk <==> buf != None && status == Connected && ipAddress != ""
      ensures res.1 == if res.0 == EspOk then Some(ipAddress) else buf
    {
      if buf == None then (EspErrInvalidArg, buf)
      else if status != Connected || |ipAddress| == 0 then (EspErrInvalidState, buf)
      else (EspOk, Some(ipAddress))
    }

    /** `wifi_hal_get_status`; while the invariant holds, a Connected report
        means the address accessor will succeed. */
    function GetStatus(): (s: WifiStatus)
      reads this
      ensures s == status
      ensures Valid() && s == Connected ==> GetIpAddress(Some("")) == (EspOk, Some(ipAddress))
      ensures s == Connected <==> GetIpAddress(Some("")).0 == EspOk || (status == Connected && ipAddress == "")
    {
      status
    }

    /** `wifi_hal_get_rssi`: 0 unless connected and the AP query succeeds. */
    function GetRssi(apInfoResult: EspErr, apRssi: Int8): (rssi: Int8)
      reads this
      ensures status != Connected || apInfoResult != EspOk ==> rssi == 0
      ensures status == Connected && apInfoResult == EspOk ==> rssi == apRssi
    {
      if status != Connected then 0
      else if apInfoResult == EspOk then apRssi
      else 0
    }
  }
}
