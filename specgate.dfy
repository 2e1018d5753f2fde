/** The hard-coded SpecGate demo: keyword classification of a change
    request, matching against a service registry, the legacy-or-preferred
    decision, and the routing manifest handed to a coding agent. The
    registry is the decoded JSON file; the answer to the console question
    is a parameter. */
module Specgate {
  import opened Wrappers
  import opened Values
  import opened Text

  // ---------------------------------------------------------------------
  // classify_prompt

  function PaymentKeywords(): seq<string> {
    ["payment", "pay", "checkout", "card", "billing", "stripe"]
  }

  function UiKeywords(): seq<string> {
    ["button", "ui", "page", "screen", "component"]
  }

  /** `any(k in p for k in keys)`: some keyword is a substring of `p`. */
  function AnyIn(keys: seq<string>, p: string): bool {
    keys != [] && (Contains(p, keys[0]) || AnyIn(keys[1..], p))
  }

  lemma {:induction false} AnyInFinds(keys: seq<string>, p: string)
    ensures AnyIn(keys, p) <==> exists i :: 0 <= i < |keys| && Contains(p, keys[i])
  {
    if keys != [] {
      AnyInFinds(keys[1..], p);
      if AnyIn(keys, p) && !Contains(p, keys[0]) {
        var i :| 0 <= i < |keys| - 1 && Contains(p, keys[1..][i]);
        assert Contains(p, keys[i + 1]);
      }
      if (exists i :: 0 <= i < |keys| && Contains(p, keys[i])) && !Contains(p, keys[0]) {
        var i :| 0 <= i < |keys| && Contains(p, keys[i]);
        assert keys[1..][i - 1] == keys[i];
      }
    }
  }

  /** The result of `classify_prompt`: the domain and the two signals. */
  datatype Classification = Classification(domain: string, payments: bool, ui: bool)

  function ClassifyPrompt(prompt: string): (c: Classification)
    ensures c.domain == "payments" <==> c.payments
    ensures c.domain != "payments" ==> c.domain == "general"
    ensures c.payments <==> exists i :: 0 <= i < |PaymentKeywords()| && Contains(Lower(prompt), PaymentKeywords()[i])
    ensures c.ui <==> exists i :: 0 <= i < |UiKeywords()| && Contains(Lower(prompt), UiKeywords()[i])
  {
    var p := Lower(prompt);
    var payments := AnyIn(PaymentKeywords(), p);
    var ui := AnyIn(UiKeywords(), p);
    AnyInFinds(PaymentKeywords(), p);
    AnyInFinds(UiKeywords(), p);
    Classification(if payments then "payments" else "general", payments, ui)
  }

  /** "payment" is redundant in the keyword list: every prompt containing it
      also contains "pay". */
  lemma PayCoversPayment(prompt: string)
    ensures var p := Lower(prompt);
      ClassifyPrompt(prompt).payments
      <==> Contains(p, "pay") || Contains(p, "checkout") || Contains(p, "card")
           || Contains(p, "billing") || Contains(p, "stripe")
  {
    var p := Lower(prompt);
    var ks := PaymentKeywords();
    assert ks[0] == "payment" && ks[1] == "pay" && ks[2] == "checkout";
    assert ks[3] == "card" && ks[4] == "billing" && ks[5] == "stripe";
    if ClassifyPrompt(prompt).payments {
      var i :| 0 <= i < |ks| && Contains(p, ks[i]);
      if i == 0 {
        assert OccursAt("payment", "pay", 0);
        ContainsTransitive(p, "payment", "pay");
      }
    }
  }

  /** `c !in u` for a character `c` of `w`: `w` cannot occur in `u`. */
  lemma LacksChar(u: string, w: string, c: char)
    requires c in w && c !in u
    ensures !Contains(u, w)
  {
    forall i | 0 <= i <= |u| - |w| ensures !OccursAt(u, w, i) {
      var j :| 0 <= j < |w| && w[j] == c;
      assert u[i..i + |w|][j] == u[i + j];
    }
  }

  /** No payment keyword occurs inside a UI keyword. */
  lemma UiWordHasNoPaymentKeyword(i: int, j: int)
    requires 0 <= i < |UiKeywords()| && 0 <= j < |PaymentKeywords()|
    ensures !Contains(UiKeywords()[i], PaymentKeywords()[j])
  {
    var w := UiKeywords()[i];
    var k := PaymentKeywords()[j];
    assert w in {"button", "ui", "page", "screen", "component"};
    if j <= 1 {
      assert k[2] == 'y';
      LacksChar(w, k, 'y');
    } else if j == 2 {
      assert k[1] == 'h';
      LacksChar(w, k, 'h');
    } else if j == 3 {
      assert k[3] == 'd';
      LacksChar(w, k, 'd');
    } else if j == 4 {
      assert k[2] == 'l';
      LacksChar(w, k, 'l');
    } else if w == "screen" {
      assert k[1] == 't';
      LacksChar(w, k, 't');
    } else {
      assert k[0] == 's';
      LacksChar(w, k, 's');
    }
  }

  /** A keyword list none of whose keywords is empty, has a space or occurs
      in `w` gives the same answer on `a + " " + w` as on `a`. */
  lemma {:induction false} AnyInAcross(keys: seq<string>, a: string, w: string)
    requires forall j :: 0 <= j < |keys| ==> keys[j] != [] && ' ' !in keys[j] && !Contains(w, keys[j])
    ensures AnyIn(keys, a + " " + w) == AnyIn(keys, a)
  {
    if keys != [] {
      ContainsAcrossSpace(a, w, keys[0]);
      AnyInAcross(keys[1..], a, w);
    }
  }

  /** Lower-casing a concatenation with a word that has no capitals. */
  lemma LowerSpaceWord(a: string, w: string)
    requires forall j :: 0 <= j < |w| ==> !('A' <= w[j] <= 'Z')
    ensures Lower(a + " " + w) == Lower(a) + " " + w
  {
    var s := a + " " + w;
    var r := Lower(a) + " " + w;
    assert |Lower(s)| == |r|;
    forall j | 0 <= j < |s| ensures Lower(s)[j] == r[j] {
      if j < |a| {
        assert s[j] == a[j];
      } else if j > |a| {
        assert s[j] == w[j - |a| - 1];
      }
    }
  }

  /** The UI signal never decides the domain: appending a UI keyword to a
      prompt raises the UI signal and leaves the domain as it was. */
  lemma UiWordKeepsDomain(prompt: string, i: int)
    requires 0 <= i < |UiKeywords()|
    ensures var w := UiKeywords()[i];
      ClassifyPrompt(prompt + " " + w).domain == ClassifyPrompt(prompt).domain
      && ClassifyPrompt(prompt + " " + w).ui
  {
    var w := UiKeywords()[i];
    var p := Lower(prompt);
    assert w in {"button", "ui", "page", "screen", "component"};
    assert forall j :: 0 <= j < |w| ==> 'a' <= w[j] <= 'z';
    LowerSpaceWord(prompt, w);
    var keys := PaymentKeywords();
    forall j | 0 <= j < |keys| ensures keys[j] != [] && ' ' !in keys[j] && !Contains(w, keys[j]) {
      UiWordHasNoPaymentKeyword(i, j);
    }
    AnyInAcross(keys, p, w);
    assert OccursAt(w, w, 0);
    ContainsRight(p, w, w);
    AnyInFinds(UiKeywords(), p + " " + w);
  }

  // ---------------------------------------------------------------------
  // registry_match

  /** The entries `for s in registry.get("services", [])` visits, when every
      one of them is a dict; None where the loop or `s.get` raises (a number
      or null is not iterable; the characters of a string and the keys of a
      dict have no `get`). */
  function Entries(v: Json): Option<seq<map<string, Json>>> {
    match v
    case JArr(items) =>
      if forall i :: 0 <= i < |items| ==> items[i].JObj?
      then Some(seq(|items|, i requires 0 <= i < |items| && items[i].JObj? => items[i].fields))
      else None
    case JStr(s) => if s == "" then Some([]) else None
    case JObj(f) => if f == map[] then Some([]) else None
    case _ => None
  }

  /** `s.get(key) == value` for a string `value`. */
  predicate Has(s: map<string, Json>, key: string, value: string) {
    Get(s, key, JNull) == JStr(value)
  }

  /** `[s for s in services if s.get("type") == domain]`. */
  function OfType(services: seq<map<string, Json>>, domain: string): seq<map<string, Json>> {
    if services == [] then []
    else (if Has(services[0], "type", domain) then [services[0]] else []) + OfType(services[1..], domain)
  }

  /** `next((s for s in services if s.get("status") == status), None)`. */
  function FirstWith(services: seq<map<string, Json>>, status: string): Option<map<string, Json>> {
    if services == [] then None
    else if Has(services[0], "status", status) then Some(services[0])
    else FirstWith(services[1..], status)
  }

  datatype Match = Match(services: seq<map<string, Json>>,
                         preferred: Option<map<string, Json>>,
                         legacy: Option<map<string, Json>>)

  /** `registry_match(registry, domain)`; None where it raises. */
  function RegistryMatch(registry: Json, domain: string): (r: Option<Match>)
    ensures r.Some? <==> registry.JObj? && Entries(Get(registry.fields, "services", JArr([]))).Some?
  {
    if !registry.JObj? then None
    else
      match Entries(Get(registry.fields, "services", JArr([])))
      case None => None
      case Some(all) =>
        var services := OfType(all, domain);
        Some(Match(services, FirstWith(services, "preferred"), FirstWith(services, "legacy")))
  }

  /** The matching services are exactly the entries of the domain's type. */
  lemma {:induction false} OfTypeMembers(services: seq<map<string, Json>>, domain: string)
    ensures |OfType(services, domain)| <= |services|
    ensures forall s :: s in OfType(services, domain) <==> s in services && Has(s, "type", domain)
  {
    if services != [] {
      OfTypeMembers(services[1..], domain);
      var head := if Has(services[0], "type", domain) then [services[0]] else [];
      assert OfType(services, domain) == head + OfType(services[1..], domain);
      assert services == [services[0]] + services[1..];
    }
  }

  /** Filtering keeps registry order: it distributes over concatenation. */
  lemma {:induction false} OfTypeConcat(xs: seq<map<string, Json>>, ys: seq<map<string, Json>>, domain: string)
    ensures OfType(xs + ys, domain) == OfType(xs, domain) + OfType(ys, domain)
  {
    if xs != [] {
      assert (xs + ys)[1..] == xs[1..] + ys;
      OfTypeConcat(xs[1..], ys, domain);
    } else {
      assert xs + ys == ys;
    }
  }

  /** `FirstWith` finds the first service with the status, and None exactly
      when there is none. */
  lemma {:induction false} FirstWithFinds(services: seq<map<string, Json>>, status: string)
    ensures FirstWith(services, status).None? <==> forall i :: 0 <= i < |services| ==> !Has(services[i], "status", status)
    ensures FirstWith(services, status).Some? ==>
      exists i :: 0 <= i < |services| && services[i] == FirstWith(services, status).value
        && Has(services[i], "status", status)
        && forall j :: 0 <= j < i ==> !Has(services[j], "status", status)
  {
    if services != [] && !Has(services[0], "status", status) {
      var rest := services[1..];
      FirstWithFinds(rest, status);
      if FirstWith(services, status).None? {
        forall i | 0 <= i < |services| ensures !Has(services[i], "status", status) {
          if i > 0 { assert services[i] == rest[i - 1]; }
        }
      } else {
        var i :| 0 <= i < |rest| && rest[i] == FirstWith(rest, status).value
          && Has(rest[i], "status", status)
          && forall j :: 0 <= j < i ==> !Has(rest[j], "status", status);
        assert services[i + 1] == rest[i];
        forall j | 0 <= j < i + 1 ensures !Has(services[j], "status", status) {
          if j > 0 { assert services[j] == rest[j - 1]; }
        }
      }
    }
  }

  /** What `registry_match` promises: the services of the domain's type, and
      the first preferred and first legacy among them. */
  lemma RegistryMatchSpec(registry: Json, domain: string)
    requires RegistryMatch(registry, domain).Some?
    ensures var m := RegistryMatch(registry, domain).value;
      var all := Entries(Get(registry.fields, "services", JArr([]))).value;
      && (forall s :: s in m.services <==> s in all && Has(s, "type", domain))
      && (m.preferred.Some? ==> m.preferred.value in m.services && Has(m.preferred.value, "status", "preferred"))
      && (m.preferred.None? <==> forall s :: s in m.services ==> !Has(s, "status", "preferred"))
      && (m.legacy.Some? ==> m.legacy.value in m.services && Has(m.legacy.value, "status", "legacy"))
      && (m.legacy.None? <==> forall s :: s in m.services ==> !Has(s, "status", "legacy"))
  {
    var m := RegistryMatch(registry, domain).value;
    var all := Entries(Get(registry.fields, "services", JArr([]))).value;
    OfTypeMembers(all, domain);
    FirstWithFinds(m.services, "preferred");
    FirstWithFinds(m.services, "legacy");
  }

  // ---------------------------------------------------------------------
  // ask_clarifying_question

  datatype Choice = Preferred | Legacy

  /** The exception a failing `ask_clarifying_question` or `build_manifest`
      raises. */
  datatype Fault = TypeError | KeyError | AttributeError

  /** The decision of `ask_clarifying_question`, with the typed answer as a
      parameter. A matched service is a non-empty dict (it has a "status"),
      so `pref and leg` holds exactly when both were found. The question it
      prints names both services before it reads the answer, so a service
      without a "name" raises KeyError there. */
  function AskClarifyingQuestion(m: Match, answer: string): (r: Result<Choice, Fault>)
    ensures r.Failure? <==>
      m.preferred.Some? && m.legacy.Some? && ("name" !in m.legacy.value || "name" !in m.preferred.value)
    ensures r.Failure? ==> r.error == KeyError
    ensures r == Success(Legacy) <==>
      && m.preferred.Some? && m.legacy.Some?
      && "name" in m.legacy.value && "name" in m.preferred.value
      && Strip(answer) == "1"
  {
    if m.preferred.Some? && m.legacy.Some? then
      if "name" !in m.legacy.value || "name" !in m.preferred.value then Failure(KeyError)
      else if Strip(answer) == "1" then Success(Legacy) else Success(Preferred)
    else Success(Preferred)
  }

  /** Surrounding whitespace in the answer does not matter. */
  lemma AnswerIsStripped(m: Match, answer: string)
    ensures AskClarifyingQuestion(m, answer) == AskClarifyingQuestion(m, Strip(answer))
  {
    if m.preferred.Some? && m.legacy.Some? && "name" in m.legacy.value && "name" in m.preferred.value {
      StripIdempotent(answer);
    }
  }

  // ---------------------------------------------------------------------
  // build_manifest

  datatype UiRules = UiRules(designTokensFile: Json, buttonsUseTokens: Json, noInlineHexColors: Json)
  datatype ServiceRules = ServiceRules(auth: Json, pci: Json, auditLogging: Json, ui: UiRules)
  datatype Routing = Routing(domain: string, chosenService: Json, serviceVersion: Json)
  datatype PolicyCheck = PolicyCheck(id: Json, rule: Json, status: string)
  datatype FileChange = FileChange(path: string, changeType: string, intent: string)

  /** The manifest `build_manifest` returns, without `generated_at`. Its
      "files", "acceptance_criteria" and "handoff_to_coding_agent" entries are
      fixed text around the chosen service's name and version; they are
      `ManifestFiles`, `AcceptanceCriteria` and `HandoffInstruction` of the
      routing. */
  datatype Manifest = Manifest(
    specgateVersion: string,
    inputPrompt: string,
    routing: Routing,
    constraints: ServiceRules,
    policyChecks: seq<PolicyCheck>)

  /** The values `for p in policies` visits: the items of a list; a non-empty
      string or dict yields strings, which `p["id"]` rejects, and a number,
      boolean or null is not iterable. */
  function PolicyEntries(v: Json): Result<seq<Json>, Fault> {
    match v
    case JArr(items) => Success(items)
    case JStr(s) => if s == "" then Success([]) else Failure(TypeError)
    case JObj(f) => if f == map[] then Success([]) else Failure(TypeError)
    case _ => Failure(TypeError)
  }

  /** `{"id": p["id"], "rule": p["rule"], "status": "enforced"}`. */
  function PolicyCheckOf(p: Json): Result<PolicyCheck, Fault> {
    if !p.JObj? then Failure(TypeError)
    else if "id" !in p.fields || "rule" !in p.fields then Failure(KeyError)
    else Success(PolicyCheck(p.fields["id"], p.fields["rule"], "enforced"))
  }

  /** The list comprehension over the policies: the first failing entry
      raises. */
  function PolicyChecks(ps: seq<Json>): Result<seq<PolicyCheck>, Fault> {
    if ps == [] then Success([])
    else
      match PolicyCheckOf(ps[0])
      case Failure(e) => Failure(e)
      case Success(c) =>
        match PolicyChecks(ps[1..])
        case Failure(e) => Failure(e)
        case Success(cs) => Success([c] + cs)
  }

  /** What an f-string renders for a scalar; lists and dicts are not modelled
      (see README). */
  function Display(v: Json): string {
    if Hashable(v) then ScalarString(v) else ""
  }

  /** The manifest's "files": the two files the coding agent may touch. */
  function ManifestFiles(r: Routing): seq<FileChange> {
    [ FileChange("app/Checkout.tsx", "modify",
        "Add a payment button that uses design tokens and routes through chosen payments service."),
      FileChange("app/paymentsClient.ts", "create",
        "Client wrapper for " + Display(r.chosenService) + " with required auth and audit logging hooks.") ]
  }

  /** The manifest's "acceptance_criteria". */
  function AcceptanceCriteria(r: Routing): seq<string> {
    [ "Payment button uses design tokens (no inline hex colors).",
      "Payments flow uses " + Display(r.chosenService) + " (" + Display(r.serviceVersion) + ").",
      "No PII stored in logs.",
      "All changes limited to files listed in manifest.",
      "Button uses design tokens",
      "No inline hex colors" ]
  }

  /** The manifest's "handoff_to_coding_agent" instruction. */
  function HandoffInstruction(): string {
    "Generate or modify ONLY the files listed. Follow constraints and acceptance criteria exactly."
  }

  /** The service the decision picks: `match["legacy"]` for a legacy choice,
      `match["preferred"]` otherwise. */
  function Chosen(m: Match, choice: Choice): Option<map<string, Json>> {
    if choice == Legacy then m.legacy else m.preferred
  }

  /** `build_manifest(prompt, registry, match, decision)`, failing with the
      exception the first failing step raises, in evaluation order. */
  function BuildManifest(prompt: string, registry: Json, m: Match, choice: Choice): (r: Result<Manifest, Fault>)
    ensures r.Success? ==> Chosen(m, choice).Some?
  {
    var chosen := Chosen(m, choice);
    if !registry.JObj? then Failure(AttributeError)
    else
      var policies := Get(registry.fields, "policies", JArr([]));
      var ui := Get(registry.fields, "ui", JObj(map[]));
      if !ui.JObj? then Failure(AttributeError)
      else
        var uiConstraints := Get(ui.fields, "constraints", JObj(map[]));
        if chosen.None? then Failure(TypeError)
        else
          var s := chosen.value;
          if "name" !in s || "version" !in s || "constraints" !in s then Failure(KeyError)
          else if !s["constraints"].JObj? || !uiConstraints.JObj? then Failure(AttributeError)
          else
            var sc := s["constraints"].fields;
            var rules := ServiceRules(
              Get(sc, "requiredAuth", JNull), Get(sc, "pci", JNull), Get(sc, "auditLogging", JBool(false)),
              UiRules(Get(ui.fields, "designTokensFile", JNull),
                      Get(uiConstraints.fields, "buttonsUseTokens", JBool(true)),
                      Get(uiConstraints.fields, "noInlineHexColors", JBool(true))));
            match PolicyEntries(policies)
            case Failure(e) => Failure(e)
            case Success(ps) =>
              match PolicyChecks(ps)
              case Failure(e) => Failure(e)
              case Success(checks) =>
                Success(Manifest("0.1", prompt, Routing("payments", s["name"], s["version"]), rules, checks))
  }

  /** One check per policy, in order, each "enforced"; the comprehension
      fails exactly when some policy is not a dict with an "id" and a
      "rule". */
  lemma {:induction false} PolicyChecksSpec(ps: seq<Json>)
    ensures PolicyChecks(ps).Success? <==> forall i :: 0 <= i < |ps| ==> PolicyCheckOf(ps[i]).Success?
    ensures PolicyChecks(ps).Success? ==>
      var cs := PolicyChecks(ps).value;
      && |cs| == |ps|
      && forall i :: 0 <= i < |ps| ==>
           ps[i].JObj? && "id" in ps[i].fields && "rule" in ps[i].fields
           && cs[i] == PolicyCheck(ps[i].fields["id"], ps[i].fields["rule"], "enforced")
  {
    if ps != [] {
      var rest := ps[1..];
      PolicyChecksSpec(rest);
      if PolicyChecks(ps).Success? {
        var cs := PolicyChecks(ps).value;
        assert cs == [PolicyCheckOf(ps[0]).value] + PolicyChecks(rest).value;
        forall i | 0 <= i < |ps|
          ensures ps[i].JObj? && "id" in ps[i].fields && "rule" in ps[i].fields
            && cs[i] == PolicyCheck(ps[i].fields["id"], ps[i].fields["rule"], "enforced")
        {
          if i > 0 { assert ps[i] == rest[i - 1]; }
        }
      } else if PolicyCheckOf(ps[0]).Success? {
        var i :| 0 <= i < |rest| && !PolicyCheckOf(rest[i]).Success?;
        assert ps[i + 1] == rest[i];
      }
    }
  }

  /** The manifest routes to the chosen service, always in the "payments"
      domain, and echoes the prompt. */
  lemma ManifestRoutes(prompt: string, registry: Json, m: Match, choice: Choice)
    requires BuildManifest(prompt, registry, m, choice).Success?
    ensures var r := BuildManifest(prompt, registry, m, choice).value;
      var s := if choice == Legacy then m.legacy.value else m.preferred.value;
      && "name" in s && "version" in s
      && r.routing == Routing("payments", s["name"], s["version"])
      && r.inputPrompt == prompt
      && r.specgateVersion == "0.1"
  {
  }

  /** It raises exactly when the registry or its "ui" entry is not a dict,
      when the chosen service is missing (a legacy choice without a legacy
      service, or no preferred one), lacks a name, version or constraints,
      when those constraints or the UI constraints are not dicts, or when a
      policy is not a dict with an id and a rule. */
  lemma ManifestFails(prompt: string, registry: Json, m: Match, choice: Choice)
    ensures BuildManifest(prompt, registry, m, choice).Success? <==>
      && registry.JObj?
      && Get(registry.fields, "ui", JObj(map[])).JObj?
      && Get(Get(registry.fields, "ui", JObj(map[])).fields, "constraints", JObj(map[])).JObj?
      && Chosen(m, choice).Some?
      && "name" in Chosen(m, choice).value && "version" in Chosen(m, choice).value
      && "constraints" in Chosen(m, choice).value && Chosen(m, choice).value["constraints"].JObj?
      && PolicyEntries(Get(registry.fields, "policies", JArr([]))).Success?
      && forall i :: 0 <= i < |PolicyEntries(Get(registry.fields, "policies", JArr([]))).value| ==>
           PolicyCheckOf(PolicyEntries(Get(registry.fields, "policies", JArr([]))).value[i]).Success?
    ensures registry.JObj? && Get(registry.fields, "ui", JObj(map[])).JObj? && Chosen(m, choice).None? ==>
      BuildManifest(prompt, registry, m, choice) == Failure(TypeError)
  {
    if registry.JObj? {
      var policies := PolicyEntries(Get(registry.fields, "policies", JArr([])));
      if policies.Success? {
        PolicyChecksSpec(policies.value);
      }
    }
  }

  /** One "enforced" check per policy of a policy list, in order. */
  lemma ManifestPolicyChecks(prompt: string, registry: Json, m: Match, choice: Choice)
    requires BuildManifest(prompt, registry, m, choice).Success?
    ensures var ps := PolicyEntries(Get(registry.fields, "policies", JArr([]))).value;
      var cs := BuildManifest(prompt, registry, m, choice).value.policyChecks;
      && |cs| == |ps|
      && forall i :: 0 <= i < |ps| ==>
           ps[i].JObj? && "id" in ps[i].fields && "rule" in ps[i].fields
           && cs[i] == PolicyCheck(ps[i].fields["id"], ps[i].fields["rule"], "enforced")
  {
    PolicyChecksSpec(PolicyEntries(Get(registry.fields, "policies", JArr([]))).value);
  }

  /** Missing settings take their defaults: no auth or PCI level, no audit
      logging, and buttons that use tokens with no inline hex colours;
      settings that are present are copied unchanged. */
  lemma ManifestDefaults(prompt: string, registry: Json, m: Match, choice: Choice)
    requires BuildManifest(prompt, registry, m, choice).Success?
    ensures var r := BuildManifest(prompt, registry, m, choice).value;
      var sc := Chosen(m, choice).value["constraints"].fields;
      var uc := Get(Get(registry.fields, "ui", JObj(map[])).fields, "constraints", JObj(map[])).fields;
      && ("auditLogging" !in sc ==> r.constraints.auditLogging == JBool(false))
      && ("auditLogging" in sc ==> r.constraints.auditLogging == sc["auditLogging"])
      && ("requiredAuth" !in sc ==> r.constraints.auth == JNull)
      && ("requiredAuth" in sc ==> r.constraints.auth == sc["requiredAuth"])
      && ("pci" !in sc ==> r.constraints.pci == JNull)
      && ("pci" in sc ==> r.constraints.pci == sc["pci"])
      && ("buttonsUseTokens" !in uc ==> r.constraints.ui.buttonsUseTokens == JBool(true))
      && ("buttonsUseTokens" in uc ==> r.constraints.ui.buttonsUseTokens == uc["buttonsUseTokens"])
      && ("noInlineHexColors" !in uc ==> r.constraints.ui.noInlineHexColors == JBool(true))
      && ("noInlineHexColors" in uc ==> r.constraints.ui.noInlineHexColors == uc["noInlineHexColors"])
  {
  }

  // ---------------------------------------------------------------------
  // The demo run

  function DemoService(name: string, status: string, version: string): map<string, Json> {
    map["name" := JStr(name), "type" := JStr("payments"), "status" := JStr(status),
        "version" := JStr(version), "constraints" := JObj(map["requiredAuth" := JStr("oauth")])]
  }

  lemma DemoServiceFields(name: string, status: string, version: string)
    ensures var s := DemoService(name, status, version);
      && "name" in s && s["name"] == JStr(name)
      && "version" in s && s["version"] == JStr(version)
      && "constraints" in s && s["constraints"] == JObj(map["requiredAuth" := JStr("oauth")])
  {
  }

  /** A registry with a legacy and a preferred payments service. */
  function DemoRegistry(): Json {
    JObj(map["services" := JArr([JObj(DemoService("Pay-Old", "legacy", "v1")),
                                 JObj(DemoService("Pay-Secure", "preferred", "v2"))])])
  }

  /** The short prompt "pay" is a payments request. */
  lemma DemoClassify()
    ensures ClassifyPrompt("pay").domain == "payments"
  {
    assert forall j :: 0 <= j < 3 ==> "pay"[j] == LowerChar("pay"[j]);
    assert Lower("pay") == "pay";
    assert OccursAt("pay", PaymentKeywords()[1], 0);
  }

  /** Matching the demo registry on "payments" finds both services, the
      legacy one first. */
  lemma DemoMatch()
    ensures RegistryMatch(DemoRegistry(), "payments") ==
      Some(Match([DemoService("Pay-Old", "legacy", "v1"), DemoService("Pay-Secure", "preferred", "v2")],
                 Some(DemoService("Pay-Secure", "preferred", "v2")),
                 Some(DemoService("Pay-Old", "legacy", "v1"))))
  {
    var legacy := DemoService("Pay-Old", "legacy", "v1");
    var preferred := DemoService("Pay-Secure", "preferred", "v2");
    assert Has(legacy, "type", "payments") && Has(preferred, "type", "payments");
    assert Has(legacy, "status", "legacy") && !Has(legacy, "status", "preferred");
    assert Has(preferred, "status", "preferred");
    var all := [legacy, preferred];
    var items := [JObj(legacy), JObj(preferred)];
    var found := Entries(JArr(items));
    assert found.Some? && |found.value| == 2;
    assert found.value[0] == legacy && found.value[1] == preferred;
    assert found.value == all;
    assert all[1..] == [preferred] && [preferred][1..] == [];
    assert OfType([preferred], "payments") == [preferred];
    assert OfType(all, "payments") == all;
    assert FirstWith(all, "preferred") == Some(preferred);
  }

  /** The manifest for either choice on the demo registry. */
  lemma DemoRoute(m: Match, choice: Choice)
    requires m == RegistryMatch(DemoRegistry(), "payments").value
    ensures var r := BuildManifest("pay", DemoRegistry(), m, choice);
      && r.Success?
      && r.value.routing.chosenService == (if choice == Legacy then JStr("Pay-Old") else JStr("Pay-Secure"))
      && r.value.policyChecks == []
      && r.value.constraints.auth == JStr("oauth")
      && r.value.constraints.auditLogging == JBool(false)
  {
    DemoMatch();
    DemoServiceFields("Pay-Old", "legacy", "v1");
    DemoServiceFields("Pay-Secure", "preferred", "v2");
    var reg := DemoRegistry().fields;
    assert "policies" !in reg && "ui" !in reg;
  }

  /** Answering "1" (around any whitespace) routes to the legacy service and
      any other answer to the preferred one. */
  lemma DemoRun(answer: string)
    ensures var m := RegistryMatch(DemoRegistry(), "payments");
      && m.Some?
      && var c := AskClarifyingQuestion(m.value, answer);
         && c.Success?
         && var r := BuildManifest("pay", DemoRegistry(), m.value, c.value);
            && r.Success?
            && r.value.routing.chosenService == (if Strip(answer) == "1" then JStr("Pay-Old") else JStr("Pay-Secure"))
  {
    DemoMatch();
    DemoServiceFields("Pay-Old", "legacy", "v1");
    DemoServiceFields("Pay-Secure", "preferred", "v2");
    var m := RegistryMatch(DemoRegistry(), "payments").value;
    var c := AskClarifyingQuestion(m, answer);
    assert c.Success?;
    DemoRoute(m, c.value);
    assert c.value == Legacy <==> Strip(answer) == "1";
  }
}
