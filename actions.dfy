/**
 * Action descriptors and the branch `_executeAction` takes for one.
 * Only the choice of branch (and the strings it hands to the host) is
 * modelled; the service call, navigation, window opening and event dispatch
 * themselves are foreign calls.
 */
module Actions {

  import opened Wrappers

  /** JavaScript truthiness of an optional string field: present and non-empty. */
  predicate Truthy(v: Option<string>) {
    v.Some? && v.value != ""
  }

  /** `s.split(".")`: the pieces between dots, in order, possibly empty. */
  function Segments(s: string): (parts: seq<string>)
    ensures |parts| >= 1
    ensures forall i :: 0 <= i < |parts| ==> '.' !in parts[i]
  {
    if s == [] then [[]]
    else
      var rest := Segments(s[1..]);
      if s[0] == '.' then [[]] + rest else [[s[0]] + rest[0]] + rest[1..]
  }

  /** `parts.join(".")`, the inverse of Segments. */
  function Join(parts: seq<string>): string
    requires |parts| >= 1
  {
    if |parts| == 1 then parts[0] else parts[0] + "." + Join(parts[1..])
  }

  lemma {:induction false} JoinSegments(s: string)
    ensures Join(Segments(s)) == s
  {
    if s != [] {
      var rest := Segments(s[1..]);
      JoinSegments(s[1..]);
      if s[0] == '.' {
        assert Segments(s)[1..] == rest;
      } else {
        var parts := Segments(s);
        if |rest| == 1 {
          assert parts == [[s[0]] + rest[0]];
        } else {
          assert parts[1..] == rest[1..];
          assert Join(rest) == rest[0] + "." + Join(rest[1..]);
        }
      }
    }
  }

  /** A string splits into more than one piece exactly when it contains a dot. */
  lemma {:induction false} SegmentsSplitAtDot(s: string)
    ensures |Segments(s)| > 1 <==> '.' in s
  {
    if s != [] {
      SegmentsSplitAtDot(s[1..]);
      assert s == [s[0]] + s[1..];
    }
  }

  /** `const [domain, service] = s.split(".")`: the first piece and, if any, the second. */
  function DomainService(s: string): (ds: (string, Option<string>))
  {
    var parts := Segments(s);
    (parts[0], if |parts| > 1 then Some(parts[1]) else None)
  }

  /**
   * What the destructuring picks out of `s`: a domain without a dot that is a
   * prefix of `s`; a service exactly when `s` has a dot, and then `s` starts
   * with `domain.service`.
   */
  lemma DomainServiceOf(s: string)
    ensures '.' !in DomainService(s).0
    ensures DomainService(s).1.Some? <==> '.' in s
    ensures DomainService(s).1.None? ==> DomainService(s).0 == s
    ensures DomainService(s).1.Some? ==>
      var prefix := DomainService(s).0 + "." + DomainService(s).1.value;
      '.' !in DomainService(s).1.value && prefix <= s
    ensures DomainService(s).1.Some? ==>
      var prefix := DomainService(s).0 + "." + DomainService(s).1.value;
      s == prefix || prefix + "." <= s
    ensures DomainService(s).0 <= s
  {
    var parts := Segments(s);
    JoinSegments(s);
    SegmentsSplitAtDot(s);
    if |parts| > 1 {
      var tail := Join(parts[1..]);
      var prefix := parts[0] + "." + parts[1];
      assert s == parts[0] + "." + tail;
      if |parts| > 2 {
        var rest := Join(parts[2..]);
        assert tail == parts[1] + "." + rest;
        assert s == (prefix + ".") + rest;
      } else {
        assert parts[1..] == [parts[1]];
        assert s == prefix;
      }
    }
  }

  /**
   * A configured action (`tap_action`, `drag_start_action`, ...). Only the
   * fields that steer the branch choice are kept; `service_data`, `data` and
   * `target` are passed through to the host unread.
   */
  datatype ActionConfig = ActionConfig(
    action: Option<string>,
    service: Option<string>,
    navigationPath: Option<string>,
    urlPath: Option<string>,
    entity: Option<string>,
    entityId: Option<string>)

  /** The branch `_executeAction` runs, with the strings it passes on. */
  datatype Dispatch =
    | ServiceCall(domain: string, service: Option<string>)     // action "call-service" with a service
    | ServiceShorthand(domain: string, service: Option<string>) // action itself is "domain.service"
    | Navigate(path: string)
    | OpenUrl(path: string)
    | Toggle(domain: string, entityId: string)
    | ToggleWithoutEntity                                       // "toggle" with neither entity field: nothing happens
    | HostAction                                                // handed to the host as a "hass-action" event

  /** The first branch of `_executeAction` whose test holds, in source order. */
  function Classify(a: ActionConfig): (d: Dispatch)
    ensures !Truthy(a.action) ==> d == HostAction
  {
    if a.action == Some("call-service") && Truthy(a.service) then
      var ds := DomainService(a.service.value);
      ServiceCall(ds.0, ds.1)
    else if Truthy(a.action) && '.' in a.action.value then
      var ds := DomainService(a.action.value);
      ServiceShorthand(ds.0, ds.1)
    else if a.action == Some("navigate") && Truthy(a.navigationPath) then
      Navigate(a.navigationPath.value)
    else if a.action == Some("url") && Truthy(a.urlPath) then
      OpenUrl(a.urlPath.value)
    else if a.action == Some("toggle") then
      var id := if Truthy(a.entity) then a.entity else a.entityId;
      if Truthy(id) then
        Toggle(DomainService(id.value).0, id.value)
      else
        ToggleWithoutEntity
    else
      HostAction
  }

  /**
   * An action string naming a service (`"light.turn_on"`) is called as that
   * service: the domain is the piece before the first dot and the service
   * the whole piece after it, up to the next dot or the end.
   */
  lemma ShorthandCallsNamedService(a: ActionConfig)
    requires Truthy(a.action) && '.' in a.action.value
    ensures var ds := DomainService(a.action.value);
      Classify(a) == ServiceShorthand(ds.0, ds.1)
    ensures var s := a.action.value;
      var d := Classify(a);
      && d.service.Some? && '.' !in d.domain && '.' !in d.service.value
      && (s == d.domain + "." + d.service.value || d.domain + "." + d.service.value + "." <= s)
  {
    DomainServiceOf(a.action.value);
    assert a.action != Some("call-service") by {
      assert '.' !in "call-service";
    }
  }

  /**
   * Any other truthy action without a dot (`"none"`, `"more-info"`, ...) is
   * handed to the host as a `hass-action` event.
   */
  lemma OtherActionsGoToHost(a: ActionConfig)
    requires Truthy(a.action) && '.' !in a.action.value
    requires a.action.value != "call-service" && a.action.value != "navigate"
    requires a.action.value != "url" && a.action.value != "toggle"
    ensures Classify(a) == HostAction
  {
  }

  /**
   * `navigate` and `url` need their path and `call-service` its service;
   * without it the descriptor falls through to the host event.
   */
  lemma PathBranches(a: ActionConfig)
    ensures a.action == Some("call-service") ==>
      Classify(a) == (if Truthy(a.service) then ServiceCall(DomainService(a.service.value).0, DomainService(a.service.value).1)
                      else HostAction)
    ensures a.action == Some("navigate") ==>
      Classify(a) == (if Truthy(a.navigationPath) then Navigate(a.navigationPath.value) else HostAction)
    ensures a.action == Some("url") ==>
      Classify(a) == (if Truthy(a.urlPath) then OpenUrl(a.urlPath.value) else HostAction)
  {
    assert '.' !in "call-service" && '.' !in "navigate" && '.' !in "url";
  }

  /**
   * A toggle prefers `entity` over `entity_id`, toggles in the domain that
   * prefixes the chosen id, and does nothing without either.
   */
  lemma ToggleTarget(a: ActionConfig)
    requires a.action == Some("toggle")
    ensures Truthy(a.entity) ==> Classify(a) == Toggle(DomainService(a.entity.value).0, a.entity.value)
    ensures !Truthy(a.entity) && Truthy(a.entityId) ==>
      Classify(a) == Toggle(DomainService(a.entityId.value).0, a.entityId.value)
    ensures !Truthy(a.entity) && !Truthy(a.entityId) ==> Classify(a) == ToggleWithoutEntity
    ensures Classify(a).Toggle? ==> Classify(a).domain <= Classify(a).entityId && '.' !in Classify(a).domain
  {
    assert '.' !in "toggle";
    if Classify(a).Toggle? {
      DomainServiceOf(Classify(a).entityId);
    }
  }
}
