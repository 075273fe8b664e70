/**
 * The Django app plugin registry: how a Django app's declarative
 * `plugin_app` descriptor is resolved, for one project type (LMS or CMS),
 * into entries for INSTALLED_APPS, plugin settings module paths and URL
 * patterns.
 *
 * The registry's inputs -- the app configs that entry-point discovery
 * returns for a project type -- are values here; importing modules and
 * building Django URL objects are left to the host framework.
 */
module DjangoPlugins {
  import opened Wrappers

  // ---------------------------------------------------------------------
  // Names and enums
  // ---------------------------------------------------------------------

  // ProjectType: the Django projects a plugin app can extend.
  const Lms: string := "lms.djangoapp"
  const Cms: string := "cms.djangoapp"

  // SettingsType: the settings files of a project that can be extended.
  const Aws: string := "aws"
  const Common: string := "common"
  const Devstack: string := "devstack"
  const Test: string := "test"

  // Keys of an innermost configuration dictionary.
  const RelativePathKey: string := "relative_path"
  const AppNameKey: string := "app_name"
  const NamespaceKey: string := "namespace"
  const RegexKey: string := "regex"

  /** The two plugin classes, PluginSettings and PluginURLs, which differ in
      the module a missing `relative_path` falls back to. */
  datatype PluginKind = Settings | Urls {
    function DefaultRelativePath(): string {
      match this
      case Settings => "settings"
      case Urls => "urls"
    }
  }

  // ---------------------------------------------------------------------
  // Data model
  // ---------------------------------------------------------------------

  /** An innermost configuration dictionary: `relative_path`, `regex`,
      `namespace`, `app_name`, each mapped to a string. */
  type ConfigDict = map<string, string>

  /**
   * The value of an app's `plugin_app` attribute, a dictionary keyed by
   * config kind. `urlConfig` is the entry under "url_config" (project type
   * to configuration), `settingsConfig` the entry under "settings_config"
   * (project type to settings type to configuration); `None` means the key
   * is absent. `otherKeys` holds the dictionary's remaining keys, which no
   * lookup reads but which make the dictionary non-empty.
   */
  datatype PluginApp = PluginApp(
    urlConfig: Option<map<string, ConfigDict>>,
    settingsConfig: Option<map<string, map<string, ConfigDict>>>,
    otherKeys: set<string>)
  {
    /** Python truthiness of the dictionary: false exactly when it is empty. */
    predicate IsTruthy() {
      urlConfig.Some? || settingsConfig.Some? || otherKeys != {}
    }
  }

  /** The `{}` a missing `plugin_app` attribute defaults to. */
  const EmptyPluginApp: PluginApp := PluginApp(None, None, {})

  /**
   * An AppConfig class: the module it is defined in (`__module__`), its
   * class name (`__name__`), the app's dotted package name (`name`) and its
   * `plugin_app` attribute, `None` when the class does not declare one.
   */
  datatype AppConfig = AppConfig(
    moduleName: string,
    className: string,
    name: string,
    pluginApp: Option<PluginApp>)

  /** The arguments of one `url(regex, include(module, app_name=..., namespace=...))`. */
  datatype UrlPattern = UrlPattern(
    regex: string,
    modulePath: string,
    appName: Option<string>,
    namespace: string)

  // ---------------------------------------------------------------------
  // Lookups
  // ---------------------------------------------------------------------

  /** The `relative_path` of a configuration, or the plugin kind's default. */
  function RelativePath(config: ConfigDict, kind: PluginKind): string {
    Get(config, RelativePathKey).GetOr(kind.DefaultRelativePath())
  }

  /** The dotted path of the settings or URLs module a configuration points at. */
  function ModulePath(app: AppConfig, config: ConfigDict, kind: PluginKind): (path: string)
    ensures |path| > |app.name| && path[..|app.name| + 1] == app.name + "."
    ensures RelativePathKey in config ==> path == app.name + "." + config[RelativePathKey]
    ensures RelativePathKey !in config ==> path == app.name + "." + kind.DefaultRelativePath()
  {
    app.name + "." + RelativePath(config, kind)
  }

  /** Within one app, the module path determines the relative path: two
      configurations resolve to the same module exactly when their relative
      paths (after defaulting) agree. */
  lemma ModulePathInjective(app: AppConfig, c1: ConfigDict, c2: ConfigDict, kind: PluginKind)
    ensures ModulePath(app, c1, kind) == ModulePath(app, c2, kind)
        <==> RelativePath(c1, kind) == RelativePath(c2, kind)
  {
    var p1, p2 := ModulePath(app, c1, kind), ModulePath(app, c2, kind);
    var n := |app.name| + 1;
    assert p1[n..] == RelativePath(c1, kind);
    assert p2[n..] == RelativePath(c2, kind);
  }

  /** The settings configuration of `app` for a project type and settings
      type: `None` as soon as any level of the lookup is missing. */
  function SettingsConfig(app: AppConfig, projectType: string, settingsType: string): (r: Option<ConfigDict>)
    ensures r.Some? <==>
      && app.pluginApp.Some?
      && app.pluginApp.value.settingsConfig.Some?
      && projectType in app.pluginApp.value.settingsConfig.value
      && settingsType in app.pluginApp.value.settingsConfig.value[projectType]
    ensures r.Some? ==> r.value == app.pluginApp.value.settingsConfig.value[projectType][settingsType]
  {
    var pluginConfig := app.pluginApp.GetOr(EmptyPluginApp);
    var settingsConfig := pluginConfig.settingsConfig.GetOr(map[]);
    var projectTypeSettings := Get(settingsConfig, projectType).GetOr(map[]);
    Get(projectTypeSettings, settingsType)
  }

  /** The URL configuration of `app` for a project type: `None` as soon as
      any level of the lookup is missing. */
  function UrlConfig(app: AppConfig, projectType: string): (r: Option<ConfigDict>)
    ensures r.Some? <==>
      && app.pluginApp.Some?
      && app.pluginApp.value.urlConfig.Some?
      && projectType in app.pluginApp.value.urlConfig.value
    ensures r.Some? ==> r.value == app.pluginApp.value.urlConfig.value[projectType]
  {
    var pluginConfig := app.pluginApp.GetOr(EmptyPluginApp);
    var urlConfig := pluginConfig.urlConfig.GetOr(map[]);
    Get(urlConfig, projectType)
  }

  /** The regex a URL configuration is mounted at, anchored with `^`; the
      empty regex when none (or an empty one) is configured. */
  function UrlRegex(config: ConfigDict): (regex: string)
    ensures RegexKey in config && config[RegexKey] != "" ==> regex == "^" + config[RegexKey]
    ensures RegexKey !in config || config[RegexKey] == "" ==> regex == ""
  {
    var configured := Get(config, RegexKey);
    if configured.Some? && configured.value != "" then "^" + configured.value else ""
  }

  /** The regex is either empty or the configured one behind a single `^`. */
  lemma UrlRegexAnchored(config: ConfigDict)
    ensures var regex := UrlRegex(config);
      regex == "" || (regex[0] == '^' && RegexKey in config && regex[1..] == config[RegexKey])
  {
  }

  // ---------------------------------------------------------------------
  // Upper-case attributes
  // ---------------------------------------------------------------------

  /** `c.upper()` for ASCII characters. */
  function UpperChar(c: char): char {
    if 'a' <= c <= 'z' then (c as int - 32) as char else c
  }

  /** `s.upper()`, character by character. */
  function Upper(s: string): (u: string)
    ensures |u| == |s|
    ensures forall i :: 0 <= i < |s| ==> u[i] == UpperChar(s[i])
  {
    if s == [] then [] else [UpperChar(s[0])] + Upper(s[1..])
  }

  /** A string is its own upper case exactly when it holds no lower-case letter. */
  lemma UpperFixedPoints(s: string)
    ensures Upper(s) == s <==> forall i :: 0 <= i < |s| ==> !('a' <= s[i] <= 'z')
  {
    if forall i :: 0 <= i < |s| ==> !('a' <= s[i] <= 'z') {
      assert forall i :: 0 <= i < |s| ==> Upper(s)[i] == s[i];
    } else {
      var i :| 0 <= i < |s| && 'a' <= s[i] <= 'z';
      assert Upper(s)[i] != s[i];
    }
  }

  /** The filter of `_iter_uppercase_attributes`: equal to its own upper
      case, and not starting with an underscore. A name passes exactly when
      it holds no lower-case letter and does not start with `_`. */
  predicate IsUppercaseName(name: string): (upper: bool)
    ensures upper <==> (forall i :: 0 <= i < |name| ==> !('a' <= name[i] <= 'z'))
                       && (name == [] || name[0] != '_')
  {
    UpperFixedPoints(name);
    name == Upper(name) && !(|name| > 0 && name[0] == '_')
  }

  /** The (name, value) pairs of the upper-case attributes of an object,
      given the names `dir(obj)` lists and the object's attributes. */
  function UppercaseAttributes<V>(names: seq<string>, obj: map<string, V>): (attrs: seq<(string, V)>)
    requires forall n :: n in names ==> n in obj
    ensures |attrs| <= |names|
    ensures forall k :: 0 <= k < |attrs| ==>
      attrs[k].0 in names && IsUppercaseName(attrs[k].0) && attrs[k].1 == obj[attrs[k].0]
  {
    if names == [] then []
    else
      var rest := UppercaseAttributes(names[1..], obj);
      if IsUppercaseName(names[0]) then [(names[0], obj[names[0]])] + rest else rest
  }

  /** Order: the attributes of a concatenation are those of each part, in order. */
  lemma {:induction false} UppercaseAttributesAppend<V>(a: seq<string>, b: seq<string>, obj: map<string, V>)
    requires forall n :: n in a + b ==> n in obj
    ensures UppercaseAttributes(a + b, obj) == UppercaseAttributes(a, obj) + UppercaseAttributes(b, obj)
  {
    if a == [] {
      assert a + b == b;
    } else {
      assert (a + b)[0] == a[0];
      assert (a + b)[1..] == a[1..] + b;
      UppercaseAttributesAppend(a[1..], b, obj);
    }
  }

  /** Each listed name is yielded, with its value, exactly when it passes the filter. */
  lemma UppercaseAttributesSplit<V>(a: seq<string>, name: string, b: seq<string>, obj: map<string, V>)
    requires forall n :: n in a + [name] + b ==> n in obj
    ensures UppercaseAttributes(a + [name] + b, obj)
         == UppercaseAttributes(a, obj)
            + (if IsUppercaseName(name) then [(name, obj[name])] else [])
            + UppercaseAttributes(b, obj)
  {
    UppercaseAttributesAppend(a + [name], b, obj);
    UppercaseAttributesAppend(a, [name], obj);
  }

  // ---------------------------------------------------------------------
  // INSTALLED_APPS
  // ---------------------------------------------------------------------

  /** An app config is installed unless it declares a falsy `plugin_app`;
      one without the attribute is installed. */
  predicate IsIncluded(app: AppConfig): (included: bool)
    ensures !included <==> app.pluginApp == Some(EmptyPluginApp)
  {
    app.pluginApp.GetOr(EmptyPluginApp).IsTruthy() || app.pluginApp.None?
  }

  /** The `"module.Class"` string INSTALLED_APPS lists for an app config. */
  function ClassPath(app: AppConfig): (path: string)
    ensures |path| == |app.moduleName| + 1 + |app.className|
    ensures path[..|app.moduleName|] == app.moduleName && path[|app.moduleName|] == '.'
    ensures path[|app.moduleName| + 1..] == app.className
  {
    app.moduleName + "." + app.className
  }

  /** The INSTALLED_APPS entries of the plugin apps of a project type. */
  function PluginApps(configs: seq<AppConfig>): (apps: seq<string>)
    ensures |apps| <= |configs|
  {
    if configs == [] then []
    else (if IsIncluded(configs[0]) then [ClassPath(configs[0])] else []) + PluginApps(configs[1..])
  }

  /** Order: the entries of a concatenation are those of each part, in order. */
  lemma {:induction false} PluginAppsAppend(a: seq<AppConfig>, b: seq<AppConfig>)
    ensures PluginApps(a + b) == PluginApps(a) + PluginApps(b)
  {
    if a == [] {
      assert a + b == b;
    } else {
      assert (a + b)[0] == a[0];
      assert (a + b)[1..] == a[1..] + b;
      PluginAppsAppend(a[1..], b);
    }
  }

  /** Each config contributes its `"module.Class"` in its place exactly when
      it is included, that is unless its `plugin_app` exists and is falsy. */
  lemma PluginAppsSplit(a: seq<AppConfig>, app: AppConfig, b: seq<AppConfig>)
    ensures PluginApps(a + [app] + b)
         == PluginApps(a) + (if IsIncluded(app) then [ClassPath(app)] else []) + PluginApps(b)
    ensures IsIncluded(app) <==> app.pluginApp.None? || app.pluginApp.value.IsTruthy()
  {
    PluginAppsAppend(a + [app], b);
    PluginAppsAppend(a, [app]);
  }

  /** When no config is excluded, the entries are the configs' class paths, one for one. */
  lemma {:induction false} PluginAppsAllIncluded(configs: seq<AppConfig>)
    requires forall i :: 0 <= i < |configs| ==> IsIncluded(configs[i])
    ensures |PluginApps(configs)| == |configs|
    ensures forall i :: 0 <= i < |configs| ==> PluginApps(configs)[i] == ClassPath(configs[i])
  {
    if configs != [] {
      PluginAppsAllIncluded(configs[1..]);
    }
  }

  // ---------------------------------------------------------------------
  // Settings
  // ---------------------------------------------------------------------

  /** The plugin settings modules registered for a project type and
      settings type, in app-config order. */
  function SettingsModulePaths(configs: seq<AppConfig>, projectType: string, settingsType: string): (paths: seq<string>)
    ensures |paths| <= |configs|
  {
    if configs == [] then []
    else
      var rest := SettingsModulePaths(configs[1..], projectType, settingsType);
      match SettingsConfig(configs[0], projectType, settingsType)
      case None => rest
      case Some(config) => [ModulePath(configs[0], config, Settings)] + rest
  }

  /** Order: the paths of a concatenation are those of each part, in order. */
  lemma {:induction false} SettingsModulePathsAppend(a: seq<AppConfig>, b: seq<AppConfig>, projectType: string, settingsType: string)
    ensures SettingsModulePaths(a + b, projectType, settingsType)
         == SettingsModulePaths(a, projectType, settingsType) + SettingsModulePaths(b, projectType, settingsType)
  {
    if a == [] {
      assert a + b == b;
    } else {
      assert (a + b)[0] == a[0];
      assert (a + b)[1..] == a[1..] + b;
      SettingsModulePathsAppend(a[1..], b, projectType, settingsType);
    }
  }

  /** Each config contributes one module path in its place exactly when it
      has a settings entry for the (project type, settings type) pair. */
  lemma SettingsModulePathsSplit(a: seq<AppConfig>, app: AppConfig, b: seq<AppConfig>, projectType: string, settingsType: string)
    ensures SettingsModulePaths(a + [app] + b, projectType, settingsType)
         == SettingsModulePaths(a, projectType, settingsType)
            + (match SettingsConfig(app, projectType, settingsType)
               case None => []
               case Some(config) => [ModulePath(app, config, Settings)])
            + SettingsModulePaths(b, projectType, settingsType)
  {
    SettingsModulePathsAppend(a + [app], b, projectType, settingsType);
    SettingsModulePathsAppend(a, [app], projectType, settingsType);
  }

  // ---------------------------------------------------------------------
  // URLs
  // ---------------------------------------------------------------------

  /** A URL configuration after its namespace is defaulted to the app name. */
  function WithDefaultNamespace(config: ConfigDict, appName: string): (r: ConfigDict)
    ensures NamespaceKey in r
    ensures NamespaceKey in config ==> r[NamespaceKey] == config[NamespaceKey]
    ensures NamespaceKey !in config ==> r[NamespaceKey] == appName
    ensures forall k :: k != NamespaceKey ==> (k in r <==> k in config)
    ensures forall k :: k != NamespaceKey && k in config ==> r[k] == config[k]
  {
    config[NamespaceKey := Get(config, NamespaceKey).GetOr(appName)]
  }

  /** Defaulting the namespace a second time, whatever the app name, changes nothing. */
  lemma WithDefaultNamespaceIdempotent(config: ConfigDict, appName: string, otherName: string)
    ensures WithDefaultNamespace(WithDefaultNamespace(config, appName), otherName)
         == WithDefaultNamespace(config, appName)
  {
  }

  /** An app config whose URL configuration for `projectType` is replaced by `config`. */
  function WithUrlConfig(app: AppConfig, projectType: string, config: ConfigDict): (r: AppConfig)
    requires UrlConfig(app, projectType).Some?
    ensures UrlConfig(r, projectType) == Some(config)
    ensures forall pt :: pt != projectType ==> UrlConfig(r, pt) == UrlConfig(app, pt)
    ensures forall pt, st :: SettingsConfig(r, pt, st) == SettingsConfig(app, pt, st)
    ensures r.moduleName == app.moduleName && r.className == app.className && r.name == app.name
    ensures IsIncluded(r) == IsIncluded(app)
  {
    var plugin := app.pluginApp.value;
    app.(pluginApp := Some(plugin.(urlConfig := Some(plugin.urlConfig.value[projectType := config]))))
  }

  /** An app config after the namespace write-back for `projectType`; one
      without a URL configuration for it is left as it is. */
  function DefaultNamespace(app: AppConfig, projectType: string): (r: AppConfig)
    ensures UrlConfig(r, projectType).Some? <==> UrlConfig(app, projectType).Some?
    ensures UrlConfig(r, projectType).Some? ==> NamespaceKey in UrlConfig(r, projectType).value
    ensures r.moduleName == app.moduleName && r.className == app.className && r.name == app.name
    ensures IsIncluded(r) == IsIncluded(app)
  {
    match UrlConfig(app, projectType)
    case None => app
    case Some(config) => WithUrlConfig(app, projectType, WithDefaultNamespace(config, app.name))
  }

  /** The namespace write-back applied to every app config. */
  function DefaultNamespaces(configs: seq<AppConfig>, projectType: string): (r: seq<AppConfig>)
    ensures |r| == |configs|
    ensures forall i :: 0 <= i < |configs| ==> r[i] == DefaultNamespace(configs[i], projectType)
  {
    if configs == [] then []
    else [DefaultNamespace(configs[0], projectType)] + DefaultNamespaces(configs[1..], projectType)
  }

  /** What the write-back does to one app config: its URL configuration for
      the project type keeps its namespace if it had one and otherwise gets
      the app name; no other key, no other project type and no settings
      entry changes. */
  lemma DefaultNamespaceEffect(app: AppConfig, projectType: string)
    ensures UrlConfig(DefaultNamespace(app, projectType), projectType).Some?
        <==> UrlConfig(app, projectType).Some?
    ensures UrlConfig(app, projectType).Some? ==>
      var before := UrlConfig(app, projectType).value;
      var after := UrlConfig(DefaultNamespace(app, projectType), projectType).value;
      && NamespaceKey in after
      && after[NamespaceKey] == (if NamespaceKey in before then before[NamespaceKey] else app.name)
      && (forall k :: k != NamespaceKey ==> (k in after <==> k in before))
      && (forall k :: k != NamespaceKey && k in before ==> after[k] == before[k])
    ensures forall pt :: pt != projectType ==>
      UrlConfig(DefaultNamespace(app, projectType), pt) == UrlConfig(app, pt)
    ensures forall pt, st ::
      SettingsConfig(DefaultNamespace(app, projectType), pt, st) == SettingsConfig(app, pt, st)
    ensures DefaultNamespace(app, projectType).name == app.name
  {
  }

  /** Writing back a URL configuration an app already has leaves the app config as it is. */
  lemma WithUrlConfigUnchanged(app: AppConfig, projectType: string)
    requires UrlConfig(app, projectType).Some?
    ensures WithUrlConfig(app, projectType, UrlConfig(app, projectType).value) == app
  {
    var plugin := app.pluginApp.value;
    assert plugin.urlConfig.value[projectType := plugin.urlConfig.value[projectType]] == plugin.urlConfig.value;
  }

  /** The write-back is idempotent on one app config. */
  lemma DefaultNamespaceIdempotent(app: AppConfig, projectType: string)
    ensures DefaultNamespace(DefaultNamespace(app, projectType), projectType) == DefaultNamespace(app, projectType)
  {
    var once := DefaultNamespace(app, projectType);
    if UrlConfig(app, projectType).Some? {
      var config := UrlConfig(once, projectType).value;
      WithDefaultNamespaceIdempotent(UrlConfig(app, projectType).value, app.name, once.name);
      assert WithDefaultNamespace(config, once.name) == config;
      WithUrlConfigUnchanged(once, projectType);
    }
  }

  /** The write-back over all app configs is idempotent. */
  lemma DefaultNamespacesIdempotent(configs: seq<AppConfig>, projectType: string)
    ensures DefaultNamespaces(DefaultNamespaces(configs, projectType), projectType)
         == DefaultNamespaces(configs, projectType)
  {
    var once := DefaultNamespaces(configs, projectType);
    forall i | 0 <= i < |configs|
      ensures DefaultNamespaces(once, projectType)[i] == once[i]
    {
      DefaultNamespaceIdempotent(configs[i], projectType);
    }
  }

  /** The (module path, URL configuration) pairs installable for a project
      type, in app-config order, each configuration with its namespace
      defaulted. */
  function InstallableUrls(configs: seq<AppConfig>, projectType: string): (urls: seq<(string, ConfigDict)>)
    ensures |urls| <= |configs|
    ensures forall k :: 0 <= k < |urls| ==> NamespaceKey in urls[k].1
  {
    if configs == [] then []
    else
      var rest := InstallableUrls(configs[1..], projectType);
      match UrlConfig(configs[0], projectType)
      case None => rest
      case Some(config) =>
        [(ModulePath(configs[0], config, Urls), WithDefaultNamespace(config, configs[0].name))] + rest
  }

  /** Order: the URLs of a concatenation are those of each part, in order. */
  lemma {:induction false} InstallableUrlsAppend(a: seq<AppConfig>, b: seq<AppConfig>, projectType: string)
    ensures InstallableUrls(a + b, projectType) == InstallableUrls(a, projectType) + InstallableUrls(b, projectType)
  {
    if a == [] {
      assert a + b == b;
    } else {
      assert (a + b)[0] == a[0];
      assert (a + b)[1..] == a[1..] + b;
      InstallableUrlsAppend(a[1..], b, projectType);
    }
  }

  /** Each config is yielded in its place exactly when it has a URL
      configuration for the project type; the rest are skipped. */
  lemma InstallableUrlsSplit(a: seq<AppConfig>, app: AppConfig, b: seq<AppConfig>, projectType: string)
    ensures InstallableUrls(a + [app] + b, projectType)
         == InstallableUrls(a, projectType)
            + (match UrlConfig(app, projectType)
               case None => []
               case Some(config) => [(ModulePath(app, config, Urls), WithDefaultNamespace(config, app.name))])
            + InstallableUrls(b, projectType)
  {
    InstallableUrlsAppend(a + [app], b, projectType);
    InstallableUrlsAppend(a, [app], projectType);
  }

  /** Iterating again over the written-back app configs yields the same URLs. */
  lemma {:induction false} InstallableUrlsAfterWriteBack(configs: seq<AppConfig>, projectType: string)
    ensures InstallableUrls(DefaultNamespaces(configs, projectType), projectType) == InstallableUrls(configs, projectType)
  {
    if configs != [] {
      var app := configs[0];
      var rest := DefaultNamespaces(configs, projectType);
      assert rest[1..] == DefaultNamespaces(configs[1..], projectType);
      InstallableUrlsAfterWriteBack(configs[1..], projectType);
      if UrlConfig(app, projectType).Some? {
        var config := UrlConfig(app, projectType).value;
        WithDefaultNamespaceIdempotent(config, app.name, app.name);
        assert ModulePath(rest[0], WithDefaultNamespace(config, app.name), Urls) == ModulePath(app, config, Urls);
      }
    }
  }

  /** The URL pattern built from one installable URL. */
  function ToUrlPattern(url: (string, ConfigDict)): (pattern: UrlPattern)
    requires NamespaceKey in url.1
    ensures pattern.modulePath == url.0 && pattern.namespace == url.1[NamespaceKey]
    ensures pattern.appName.Some? <==> AppNameKey in url.1
    ensures pattern.appName.Some? ==> pattern.appName.value == url.1[AppNameKey]
    ensures pattern.regex == "" || (pattern.regex[0] == '^' && RegexKey in url.1 && pattern.regex[1..] == url.1[RegexKey])
  {
    UrlPattern(UrlRegex(url.1), url.0, Get(url.1, AppNameKey), url.1[NamespaceKey])
  }

  /** The URL patterns a project type mounts for its plugin apps. */
  function UrlPatterns(configs: seq<AppConfig>, projectType: string): (patterns: seq<UrlPattern>)
    ensures |patterns| == |InstallableUrls(configs, projectType)|
  {
    var urls := InstallableUrls(configs, projectType);
    seq(|urls|, k requires 0 <= k < |urls| => ToUrlPattern(urls[k]))
  }

  /** Each app config with a URL configuration contributes, in its place,
      one pattern: its anchored regex, its URLs module, its `app_name` if
      any, and its namespace or else its app name. */
  lemma UrlPatternsSplit(a: seq<AppConfig>, app: AppConfig, b: seq<AppConfig>, projectType: string)
    ensures UrlPatterns(a + [app] + b, projectType)
         == UrlPatterns(a, projectType)
            + (match UrlConfig(app, projectType)
               case None => []
               case Some(config) =>
                 [UrlPattern(
                    UrlRegex(config),
                    ModulePath(app, config, Urls),
                    Get(config, AppNameKey),
                    if NamespaceKey in config then config[NamespaceKey] else app.name)])
            + UrlPatterns(b, projectType)
  {
    InstallableUrlsSplit(a, app, b, projectType);
    var mid: seq<UrlPattern> :=
      match UrlConfig(app, projectType)
      case None => []
      case Some(config) =>
        [UrlPattern(UrlRegex(config), ModulePath(app, config, Urls), Get(config, AppNameKey),
                    if NamespaceKey in config then config[NamespaceKey] else app.name)];
    var whole := UrlPatterns(a + [app] + b, projectType);
    var expected := UrlPatterns(a, projectType) + mid + UrlPatterns(b, projectType);
    if UrlConfig(app, projectType).Some? {
      var config := UrlConfig(app, projectType).value;
      var w := WithDefaultNamespace(config, app.name);
      assert UrlRegex(w) == UrlRegex(config);
      assert Get(w, AppNameKey) == Get(config, AppNameKey);
    }
    assert |whole| == |expected|;
    assert forall k :: 0 <= k < |whole| ==> whole[k] == expected[k];
  }

  /** The app configs part-way through the write-back: the first `i` written back. */
  ghost function WrittenBackPrefix(configs: seq<AppConfig>, i: nat, projectType: string): (r: seq<AppConfig>)
    requires i <= |configs|
    ensures |r| == |configs|
    ensures i == 0 ==> r == configs
    ensures i == |configs| ==> r == DefaultNamespaces(configs, projectType)
  {
    assert configs[..0] + configs[0..] == configs;
    assert configs[..|configs|] == configs;
    DefaultNamespaces(configs[..i], projectType) + configs[i..]
  }

  /** One step of URL iteration: the app config at position `i` either is
      skipped and left as it is, or yields its URL and has its namespace
      written back. */
  lemma InstallStep(configs: seq<AppConfig>, i: nat, projectType: string)
    requires i < |configs|
    ensures UrlConfig(configs[i], projectType).None? ==>
      && InstallableUrls(configs[..i + 1], projectType) == InstallableUrls(configs[..i], projectType)
      && WrittenBackPrefix(configs, i + 1, projectType) == WrittenBackPrefix(configs, i, projectType)
    ensures UrlConfig(configs[i], projectType).Some? ==>
      var app := configs[i];
      var config := UrlConfig(app, projectType).value;
      var namespaced := WithDefaultNamespace(config, app.name);
      && InstallableUrls(configs[..i + 1], projectType)
         == InstallableUrls(configs[..i], projectType) + [(ModulePath(app, config, Urls), namespaced)]
      && WrittenBackPrefix(configs, i + 1, projectType)
         == WrittenBackPrefix(configs, i, projectType)[i := WithUrlConfig(app, projectType, namespaced)]
  {
    var app := configs[i];
    assert configs[..i + 1] == configs[..i] + [app];
    InstallableUrlsAppend(configs[..i], [app], projectType);
    var current := WrittenBackPrefix(configs, i, projectType);
    var next := WrittenBackPrefix(configs, i + 1, projectType);
    assert next == current[i := DefaultNamespace(app, projectType)];
    if UrlConfig(app, projectType).None? {
      assert current[i := app] == current;
    }
  }

  // ---------------------------------------------------------------------
  // The registry
  // ---------------------------------------------------------------------

  /**
   * The plugin registry. `available` holds, per project type, the app
   * configs that entry-point discovery registered for it; the namespace
   * write-back of URL iteration updates them in place.
   */
  class DjangoAppRegistry {
    var available: map<string, seq<AppConfig>>

    constructor (available: map<string, seq<AppConfig>>)
      ensures this.available == available
    {
      this.available := available;
    }

    /** The app configs registered for a project type. */
    function AppConfigs(projectType: string): (configs: seq<AppConfig>)
      reads this
      ensures projectType in available ==> configs == available[projectType]
      ensures projectType !in available ==> configs == []
    {
      if projectType in available then available[projectType] else []
    }

    /** The plugin settings modules to apply for a project type and
        settings type, one per app config that has an entry for the pair. */
    method IterPluginSettings(projectType: string, settingsType: string) returns (paths: seq<string>)
      ensures paths == SettingsModulePaths(AppConfigs(projectType), projectType, settingsType)
    {
      var configs := AppConfigs(projectType);
      paths := [];
      for i := 0 to |configs|
        invariant paths == SettingsModulePaths(configs[..i], projectType, settingsType)
      {
        var app := configs[i];
        SettingsModulePathsAppend(configs[..i], [app], projectType, settingsType);
        assert configs[..i + 1] == configs[..i] + [app];
        var settingsConfig := SettingsConfig(app, projectType, settingsType);
        if settingsConfig.None? {
          continue;
        }
        paths := paths + [ModulePath(app, settingsConfig.value, Settings)];
      }
      assert configs[..|configs|] == configs;
    }

    /** The installable URLs of a project type. Each app config's URL
        configuration gets its namespace defaulted in place. */
    method IterInstallableUrls(projectType: string) returns (urls: seq<(string, ConfigDict)>)
      modifies this
      ensures urls == InstallableUrls(old(AppConfigs(projectType)), projectType)
      ensures available ==
        if projectType in old(available)
        then old(available)[projectType := DefaultNamespaces(old(available[projectType]), projectType)]
        else old(available)
    {
      var configs := AppConfigs(projectType);
      urls := [];
      assert WrittenBackPrefix(configs, 0, projectType) == configs;
      assert projectType in available ==> available[projectType := configs] == available;
      for i := 0 to |configs|
        invariant urls == InstallableUrls(configs[..i], projectType)
        invariant projectType in old(available) ==>
          available == old(available)[projectType := WrittenBackPrefix(configs, i, projectType)]
        invariant projectType !in old(available) ==> available == old(available)
      {
        var app := configs[i];
        InstallStep(configs, i, projectType);
        var urlConfig := UrlConfig(app, projectType);
        if urlConfig.None? {
          continue;
        }
        var urlsModulePath := ModulePath(app, urlConfig.value, Urls);
        var namespaced := WithDefaultNamespace(urlConfig.value, app.name);
        available := available[projectType := available[projectType][i := WithUrlConfig(app, projectType, namespaced)]];
        urls := urls + [(urlsModulePath, namespaced)];
      }
      assert configs[..|configs|] == configs;
      assert WrittenBackPrefix(configs, |configs|, projectType) == DefaultNamespaces(configs, projectType);
    }

    /** The URL patterns of a project type's plugin apps, after the
        namespace write-back. */
    method GetPluginUrlPatterns(projectType: string) returns (patterns: seq<UrlPattern>)
      modifies this
      ensures patterns == UrlPatterns(old(AppConfigs(projectType)), projectType)
      ensures available ==
        if projectType in old(available)
        then old(available)[projectType := DefaultNamespaces(old(available[projectType]), projectType)]
        else old(available)
    {
      var urls := IterInstallableUrls(projectType);
      patterns := seq(|urls|, k requires 0 <= k < |urls| => ToUrlPattern(urls[k]));
    }
  }
}
