/** The configuration of the first revision (configuration.go): the
    colon-separated flag values EntryPoint, TagsOrigin and ConsulConf, the
    comma-separated ConsulTags, and the two default constructors.

    Each Set mutates its receiver in Go; here it takes the old value and
    returns the new one. Indexing past the end of the split fields is a Go
    runtime panic; it is the IndexPanic outcome, carrying the receiver as
    far as it had been updated when the panic struck.

    Every `err != nil` guard in these parsers assigns the parsed value
    only when parsing FAILED. Guard AsWritten models that; Guard Intended
    models `err == nil`, the evident intent. */
module Configuration {
  import opened GoStrings

  // ---------------------------------------------------------------------------
  // Data model
  // ---------------------------------------------------------------------------

  datatype EntryPoint = EntryPoint(address: string, port: int)

  datatype TagsOrigin = TagsOrigin(enabled: bool, serviceName: string, path: string, isFatal: bool)

  datatype ConsulConf = ConsulConf(register: bool, host: string, port: int, tags: seq<string>)

  /** The document a tags origin serves: its `tags` list. */
  datatype FetchedTags = FetchedTags(tags: seq<string>)

  datatype GlobalConfiguration = GlobalConfiguration(
    debug: bool,
    logLevel: string,
    entryPoint: EntryPoint,
    rootFolder: string,
    serviceName: string,
    consul: ConsulConf,
    tagsOrigin: TagsOrigin)

  datatype WebServerConfiguration = WebServerConfiguration(global: GlobalConfiguration, configFile: string)

  /** A Go error value: nil, or an error with its message. */
  datatype GoError = Nil | Error(message: string)

  /** What a Set call does: return (the updated receiver and the error it
      returns), or panic indexing field `index` of `length` split fields. */
  datatype SetOutcome<T> = Returned(value: T, err: GoError) | IndexPanic(partial: T, index: nat, length: nat)

  /** How a parser's error check is written. */
  datatype Guard = AsWritten | Intended

  /** Whether a parsed value is assigned: as written, only on a parse error;
      as intended, only on success. */
  predicate Assigns(g: Guard, err: NumError)
  {
    if g == AsWritten then err != NoError else err == NoError
  }

  // ---------------------------------------------------------------------------
  // EntryPoint.Set
  // ---------------------------------------------------------------------------

  /** EntryPoint.Set with the given guard: "address:port". */
  function SetEntryPoint(g: Guard, ep: EntryPoint, s: string): (r: SetOutcome<EntryPoint>)
    ensures r.IndexPanic? <==> ':' !in s
    ensures r.IndexPanic? ==> r == IndexPanic(ep.(address := s), 1, 1)
    ensures r.Returned? ==> r.err == Nil && r.value.address == Split(s, ':')[0]
    ensures r.Returned? ==>
              var p := ParseInt32(Split(s, ':')[1]);
              r.value.port == (if Assigns(g, p.err) then p.value else ep.port)
  {
    var st := Split(s, ':');
    var ep1 := ep.(address := st[0]);
    if |st| < 2 then
      SplitNoSeparator(s, ':');
      IndexPanic(ep1, 1, |st|)
    else
      var p := ParseInt32(st[1]);
      Returned(if Assigns(g, p.err) then ep1.(port := p.value) else ep1, Nil)
  }

  /** EntryPoint.Set as the source writes it. */
  function EntryPointSet(ep: EntryPoint, s: string): SetOutcome<EntryPoint>
  {
    SetEntryPoint(AsWritten, ep, s)
  }

  /** EntryPoint.Set with the guard the source evidently intends. */
  function EntryPointSetIntended(ep: EntryPoint, s: string): SetOutcome<EntryPoint>
  {
    SetEntryPoint(Intended, ep, s)
  }

  /** The text "address:port" for an entry point. */
  function FormatEntryPoint(ep: EntryPoint): string
  {
    ep.address + ":" + Itoa(ep.port)
  }

  /** The two fields of a formatted entry point split apart again. */
  lemma SplitEntryPoint(ep: EntryPoint)
    requires ':' !in ep.address
    ensures Split(FormatEntryPoint(ep), ':') == [ep.address, Itoa(ep.port)]
  {
    ItoaHasNoSeparator(ep.port, ':');
    SplitAfterPiece(ep.address, Itoa(ep.port), ':');
    SplitNoSeparator(Itoa(ep.port), ':');
  }

  /** As written, a valid port is ignored: the address is set and the port
      stays what it was. */
  lemma EntryPointSetIgnoresValidPort(ep: EntryPoint, e: EntryPoint)
    requires ':' !in e.address && MinInt32 <= e.port <= MaxInt32
    ensures EntryPointSet(ep, FormatEntryPoint(e)) == Returned(EntryPoint(e.address, ep.port), Nil)
  {
    SplitEntryPoint(e);
    ParseInt32Itoa(e.port);
  }

  /** As written, a port field with a syntax error (not an optionally
      signed digit string, and no overflowing leading digits) overwrites
      the port with 0. */
  lemma EntryPointSetZeroesBadPort(ep: EntryPoint, address: string, field: string)
    requires ':' !in address && ':' !in field
    requires !WellFormedInt(field) && LeadingValue(Magnitude(field)) <= MaxUint32
    ensures EntryPointSet(ep, address + ":" + field) == Returned(EntryPoint(address, 0), Nil)
  {
    SplitAfterPiece(address, field, ':');
    SplitNoSeparator(field, ':');
  }

  /** As written, a digit string above MaxInt32 is a range error, and the
      guard assigns its clamped value: the port becomes MaxInt32. */
  lemma EntryPointSetClampsHugePort(ep: EntryPoint, address: string, field: string)
    requires ':' !in address && |field| > 0 && AllDigits(field) && DecimalValue(field) > MaxInt32
    ensures EntryPointSet(ep, address + ":" + field) == Returned(EntryPoint(address, MaxInt32), Nil)
  {
    assert ':' !in field;
    SplitAfterPiece(address, field, ':');
    SplitNoSeparator(field, ':');
    ParseInt32Overflow(field);
  }

  /** With the intended guard, setting from the text of an entry point
      yields that entry point. */
  lemma EntryPointRoundTrip(ep: EntryPoint, e: EntryPoint)
    requires ':' !in e.address && MinInt32 <= e.port <= MaxInt32
    ensures EntryPointSetIntended(ep, FormatEntryPoint(e)) == Returned(e, Nil)
  {
    SplitEntryPoint(e);
    ParseInt32Itoa(e.port);
  }

  // ---------------------------------------------------------------------------
  // TagsOrigin.Set
  // ---------------------------------------------------------------------------

  /** TagsOrigin.Set with the given guard: "enabled:service:path:fatal". */
  function SetTagsOrigin(g: Guard, to: TagsOrigin, s: string): (r: SetOutcome<TagsOrigin>)
    ensures r.IndexPanic? <==> Count(s, ':') < 3
    ensures r.IndexPanic? ==> r.index == Count(s, ':') + 1 && r.length == r.index
    ensures r.Returned? ==>
              var st := Split(s, ':');
              && r.err == Nil
              && r.value.serviceName == st[1]
              && r.value.path == st[2]
    ensures r.Returned? ==>
              var b := ParseBool(Split(s, ':')[0]);
              r.value.enabled == (if Assigns(g, b.err) then b.value else to.enabled)
    ensures r.Returned? ==>
              var b := ParseBool(Split(s, ':')[3]);
              r.value.isFatal == (if Assigns(g, b.err) then b.value else to.isFatal)
    ensures g == AsWritten && r.Returned? ==> !r.value.enabled || to.enabled
    ensures g == AsWritten && r.Returned? ==> !r.value.isFatal || to.isFatal
  {
    var st := Split(s, ':');
    var b0 := ParseBool(st[0]);
    var to1 := if Assigns(g, b0.err) then to.(enabled := b0.value) else to;
    if |st| < 2 then IndexPanic(to1, 1, |st|)
    else
      var to2 := to1.(serviceName := st[1]);
      if |st| < 3 then IndexPanic(to2, 2, |st|)
      else
        var to3 := to2.(path := st[2]);
        if |st| < 4 then IndexPanic(to3, 3, |st|)
        else
          var b3 := ParseBool(st[3]);
          Returned(if Assigns(g, b3.err) then to3.(isFatal := b3.value) else to3, Nil)
  }

  /** TagsOrigin.Set as the source writes it. */
  function TagsOriginSet(to: TagsOrigin, s: string): SetOutcome<TagsOrigin>
  {
    SetTagsOrigin(AsWritten, to, s)
  }

  /** TagsOrigin.Set with the guard the source evidently intends. */
  function TagsOriginSetIntended(to: TagsOrigin, s: string): SetOutcome<TagsOrigin>
  {
    SetTagsOrigin(Intended, to, s)
  }

  /** The text "enabled:service:path:fatal" for a tags origin. */
  function FormatTagsOrigin(to: TagsOrigin): string
  {
    Join([FormatBool(to.enabled), to.serviceName, to.path, FormatBool(to.isFatal)], ':')
  }

  lemma SplitTagsOrigin(to: TagsOrigin)
    requires ':' !in to.serviceName && ':' !in to.path
    ensures Split(FormatTagsOrigin(to), ':') == [FormatBool(to.enabled), to.serviceName, to.path, FormatBool(to.isFatal)]
  {
    SplitJoin([FormatBool(to.enabled), to.serviceName, to.path, FormatBool(to.isFatal)], ':');
  }

  /** As written, well-formed boolean fields never reach the flags: only
      the service name and the path change. */
  lemma TagsOriginSetIgnoresValidFlags(to: TagsOrigin, t: TagsOrigin)
    requires ':' !in t.serviceName && ':' !in t.path
    ensures TagsOriginSet(to, FormatTagsOrigin(t)) == Returned(to.(serviceName := t.serviceName, path := t.path), Nil)
  {
    SplitTagsOrigin(t);
    ParseFormatBool(t.enabled);
    ParseFormatBool(t.isFatal);
  }

  /** As written, a flag field that is not a boolean literal clears its
      flag, and a literal leaves it as it was: a flag can only be cleared. */
  lemma TagsOriginSetClearsBadFlags(to: TagsOrigin, enabled: string, serviceName: string, path: string, fatal: string)
    requires ':' !in enabled && ':' !in serviceName && ':' !in path && ':' !in fatal
    ensures TagsOriginSet(to, Join([enabled, serviceName, path, fatal], ':'))
            == Returned(TagsOrigin(enabled in TrueWords + FalseWords && to.enabled, serviceName, path,
                                   fatal in TrueWords + FalseWords && to.isFatal), Nil)
  {
    SplitFour(enabled, serviceName, path, fatal, ':');
  }

  /** With the intended guard, setting from the text of a tags origin
      yields that tags origin. */
  lemma TagsOriginRoundTrip(to: TagsOrigin, t: TagsOrigin)
    requires ':' !in t.serviceName && ':' !in t.path
    ensures TagsOriginSetIntended(to, FormatTagsOrigin(t)) == Returned(t, Nil)
  {
    SplitTagsOrigin(t);
    ParseFormatBool(t.enabled);
    ParseFormatBool(t.isFatal);
  }

  // ---------------------------------------------------------------------------
  // ConsulConf.Set
  // ---------------------------------------------------------------------------

  /** ConsulConf.Set with the given guard: "register:host:port:tag,tag,...". */
  function SetConsulConf(g: Guard, cf: ConsulConf, s: string): (r: SetOutcome<ConsulConf>)
    ensures r.IndexPanic? <==> Count(s, ':') < 3
    ensures r.IndexPanic? ==> r.index == Count(s, ':') + 1 && r.length == r.index
    ensures r.Returned? ==>
              var st := Split(s, ':');
              && r.err == Nil
              && r.value.host == st[1]
              && r.value.tags == Split(st[3], ',')
              && |r.value.tags| == Count(st[3], ',') + 1
    ensures r.Returned? ==>
              var b := ParseBool(Split(s, ':')[0]);
              r.value.register == (if Assigns(g, b.err) then b.value else cf.register)
    ensures r.Returned? ==>
              var p := ParseInt32(Split(s, ':')[2]);
              r.value.port == (if Assigns(g, p.err) then p.value else cf.port)
  {
    var st := Split(s, ':');
    var b0 := ParseBool(st[0]);
    var cf1 := if Assigns(g, b0.err) then cf.(register := b0.value) else cf;
    if |st| < 2 then IndexPanic(cf1, 1, |st|)
    else
      var cf2 := cf1.(host := st[1]);
      if |st| < 3 then IndexPanic(cf2, 2, |st|)
      else
        var p := ParseInt32(st[2]);
        var cf3 := if Assigns(g, p.err) then cf2.(port := p.value) else cf2;
        if |st| < 4 then IndexPanic(cf3, 3, |st|)
        else Returned(cf3.(tags := Split(st[3], ',')), Nil)
  }

  /** ConsulConf.Set as the source writes it. */
  function ConsulConfSet(cf: ConsulConf, s: string): SetOutcome<ConsulConf>
  {
    SetConsulConf(AsWritten, cf, s)
  }

  /** ConsulConf.Set with the guard the source evidently intends. */
  function ConsulConfSetIntended(cf: ConsulConf, s: string): SetOutcome<ConsulConf>
  {
    SetConsulConf(Intended, cf, s)
  }

  /** Tags that survive a trip through the comma-separated text. */
  predicate WellFormedTags(tags: seq<string>)
  {
    |tags| > 0 && forall i :: 0 <= i < |tags| ==> ',' !in tags[i] && ':' !in tags[i]
  }

  /** The text "register:host:port:tag,tag,..." for a Consul configuration. */
  function FormatConsulConf(c: ConsulConf): string
  {
    Join([FormatBool(c.register), c.host, Itoa(c.port), Join(c.tags, ',')], ':')
  }

  /** A join of colon-free pieces is colon-free. */
  lemma {:induction false} JoinKeepsOut(pieces: seq<string>, c: char, x: char)
    requires c != x
    requires forall i :: 0 <= i < |pieces| ==> x !in pieces[i]
    ensures x !in Join(pieces, c)
  {
    if |pieces| > 1 {
      JoinKeepsOut(pieces[1..], c, x);
    }
  }

  lemma SplitConsulConf(c: ConsulConf)
    requires ':' !in c.host && WellFormedTags(c.tags)
    ensures Split(FormatConsulConf(c), ':') == [FormatBool(c.register), c.host, Itoa(c.port), Join(c.tags, ',')]
    ensures Split(Join(c.tags, ','), ',') == c.tags
  {
    ItoaHasNoSeparator(c.port, ':');
    JoinKeepsOut(c.tags, ',', ':');
    SplitJoin([FormatBool(c.register), c.host, Itoa(c.port), Join(c.tags, ',')], ':');
    SplitJoin(c.tags, ',');
  }

  /** As written, a well-formed register flag and port never reach the
      configuration: only the host and the tags change. */
  lemma ConsulConfSetIgnoresValidFields(cf: ConsulConf, c: ConsulConf)
    requires ':' !in c.host && WellFormedTags(c.tags) && MinInt32 <= c.port <= MaxInt32
    ensures ConsulConfSet(cf, FormatConsulConf(c)) == Returned(cf.(host := c.host, tags := c.tags), Nil)
  {
    SplitConsulConf(c);
    ParseFormatBool(c.register);
    ParseInt32Itoa(c.port);
  }

  /** As written, a register field that is not a boolean literal clears
      Register, and a port field ParseInt rejects overwrites Port with
      ParseInt's error value (0 for a syntax error, the int32 bound for a
      range error); valid fields leave both as they were. */
  lemma ConsulConfSetOverwritesBadFields(cf: ConsulConf, register: string, host: string, port: string, tags: string)
    requires ':' !in register && ':' !in host && ':' !in port && ':' !in tags
    ensures var p := ParseInt32(port);
            ConsulConfSet(cf, Join([register, host, port, tags], ':'))
            == Returned(ConsulConf(register in TrueWords + FalseWords && cf.register, host,
                                   if p.err == NoError then cf.port else p.value, Split(tags, ',')), Nil)
  {
    var s := Join([register, host, port, tags], ':');
    SplitFour(register, host, port, tags, ':');
    assert Count(s, ':') == 3;
    var r := ConsulConfSet(cf, s);
    assert r.Returned?;
    assert r.value.register == (register in TrueWords + FalseWords && cf.register);
    assert r.value.port == (if ParseInt32(port).err == NoError then cf.port else ParseInt32(port).value);
  }

  /** With the intended guard, setting from the text of a Consul
      configuration yields that configuration. */
  lemma ConsulConfRoundTrip(cf: ConsulConf, c: ConsulConf)
    requires ':' !in c.host && WellFormedTags(c.tags) && MinInt32 <= c.port <= MaxInt32
    ensures ConsulConfSetIntended(cf, FormatConsulConf(c)) == Returned(c, Nil)
  {
    SplitConsulConf(c);
    ParseFormatBool(c.register);
    ParseInt32Itoa(c.port);
  }

  // ---------------------------------------------------------------------------
  // ConsulTags.Set
  // ---------------------------------------------------------------------------

  /** ConsulTags.Set: append the comma-separated pieces, in order, after
      the tags already present. The "Bad Tags format" branch guards against
      an empty split, which strings.Split never returns. */
  function ConsulTagsSet(t: seq<string>, val: string): (r: SetOutcome<seq<string>>)
    ensures r.Returned? && r.err == Nil
    ensures |r.value| == |t| + Count(val, ',') + 1
    ensures r.value[..|t|] == t
    ensures r.value[|t|..] == Split(val, ',')
  {
    var tags := Split(val, ',');
    if |tags| == 0 then Returned(t, Error("Bad Tags format: " + val))
    else Returned(t + tags, Nil)
  }

  /** Setting from a comma-joined list appends exactly that list. */
  lemma ConsulTagsSetRoundTrip(t: seq<string>, tags: seq<string>)
    requires |tags| > 0 && forall i :: 0 <= i < |tags| ==> ',' !in tags[i]
    ensures ConsulTagsSet(t, Join(tags, ',')) == Returned(t + tags, Nil)
  {
    SplitJoin(tags, ',');
  }

  // ---------------------------------------------------------------------------
  // Default constructors
  // ---------------------------------------------------------------------------

  const DefaultEntryPoint := EntryPoint("0.0.0.0", 0)
  const DefaultConsul := ConsulConf(true, "127.0.0.1", 8500, ["traefik.enable=false"])
  const DefaultTagsOrigin := TagsOrigin(false, "config", "/unkown/config.yml", true)

  /** NewWebServerConfiguration: the configuration flags are parsed into. */
  function NewWebServerConfiguration(): (c: WebServerConfiguration)
    ensures c.global.debug && c.global.logLevel == "DEBUG"
  {
    WebServerConfiguration(
      GlobalConfiguration(
        debug := true,
        logLevel := "DEBUG",
        entryPoint := EntryPoint("0.0.0.0", 0),
        rootFolder := "/var/www/html",
        serviceName := "unknown",
        consul := ConsulConf(true, "127.0.0.1", 8500, ["traefik.enable=false"]),
        tagsOrigin := TagsOrigin(false, "config", "/unkown/config.yml", true)),
      configFile := "")
  }

  /** NewWebServerDefaultPointers: the values a bare flag falls back to;
      Debug and LogLevel keep Go's zero values. */
  function NewWebServerDefaultPointers(): (c: WebServerConfiguration)
    ensures !c.global.debug && c.global.logLevel == ""
  {
    var entryPoint := EntryPoint("0.0.0.0", 0);
    var consul := ConsulConf(true, "127.0.0.1", 8500, ["traefik.enable=false"]);
    var tags := TagsOrigin(false, "config", "/unkown/config.yml", true);
    WebServerConfiguration(
      GlobalConfiguration(
        debug := false,
        logLevel := "",
        entryPoint := entryPoint,
        rootFolder := "/var/www/html",
        serviceName := "unknown",
        consul := consul,
        tagsOrigin := tags),
      configFile := "")
  }

  /** The two constructors agree on every structured default and on the
      root folder and service name, and differ only in Debug and LogLevel. */
  lemma DefaultsAgree()
    ensures var a := NewWebServerConfiguration().global;
            var b := NewWebServerDefaultPointers().global;
            && a.entryPoint == b.entryPoint == DefaultEntryPoint
            && a.consul == b.consul == DefaultConsul
            && a.tagsOrigin == b.tagsOrigin == DefaultTagsOrigin
            && a.rootFolder == b.rootFolder == "/var/www/html"
            && a.serviceName == b.serviceName == "unknown"
            && a.(debug := false, logLevel := "") == b
  {
  }

  /** The default entry point is what the intended parser reads from
      "0.0.0.0:0". */
  lemma DefaultEntryPointParses(ep: EntryPoint)
    ensures EntryPointSetIntended(ep, "0.0.0.0:0") == Returned(DefaultEntryPoint, Nil)
  {
    assert Itoa(0) == "0";
    assert FormatEntryPoint(DefaultEntryPoint) == "0.0.0.0:0";
    EntryPointRoundTrip(ep, DefaultEntryPoint);
  }
}
