/**
 * The `plugin_app` descriptors of three apps of the platform, as constant
 * app configs, and how the registry resolves them for the LMS and the CMS.
 */
module PluginFixtures {
  import opened Wrappers
  import opened DjangoPlugins

  /** The grades app: URLs for the LMS, settings for three LMS settings types. */
  const Grades: AppConfig := AppConfig(
    "lms.djangoapps.grades.apps",
    "GradesConfig",
    "lms.djangoapps.grades",
    Some(PluginApp(
      Some(map[Lms := map[
        NamespaceKey := "grades_api",
        RegexKey := "api/grades/",
        RelativePathKey := "api.urls"]]),
      Some(map[Lms := map[
        Aws := map[RelativePathKey := "settings.aws"],
        Common := map[RelativePathKey := "settings.common"],
        Test := map[RelativePathKey := "settings.test"]]]),
      {})))

  /** The ace_common app: LMS settings only; devstack reuses the common module. */
  const AceCommon: AppConfig := AppConfig(
    "openedx.core.djangoapps.ace_common.apps",
    "AceCommonConfig",
    "openedx.core.djangoapps.ace_common",
    Some(PluginApp(
      None,
      Some(map[Lms := map[
        Aws := map[RelativePathKey := "settings.aws"],
        Common := map[RelativePathKey := "settings.common"],
        Devstack := map[RelativePathKey := "settings.common"]]]),
      {})))

  /** The URL configuration the theming app shares between the CMS and the LMS. */
  const ThemingUrls: ConfigDict := map[NamespaceKey := "theming", RegexKey := "theming/"]

  /** The theming app: the same URL configuration, without a relative path, for both projects. */
  const Theming: AppConfig := AppConfig(
    "openedx.core.djangoapps.theming.apps",
    "ThemingConfig",
    "openedx.core.djangoapps.theming",
    Some(PluginApp(Some(map[Cms := ThemingUrls, Lms := ThemingUrls]), None, {})))

  /** The three apps, in registration order. */
  const Apps: seq<AppConfig> := [Grades, AceCommon, Theming]

  /** Grades resolves its LMS aws settings and its LMS URLs from the given relative paths. */
  lemma GradesResolution()
    ensures SettingsConfig(Grades, Lms, Aws).Some?
    ensures ModulePath(Grades, SettingsConfig(Grades, Lms, Aws).value, Settings) == "lms.djangoapps.grades.settings.aws"
    ensures SettingsConfig(Grades, Lms, Devstack).None? && SettingsConfig(Grades, Cms, Aws).None?
    ensures UrlConfig(Grades, Lms).Some? && UrlConfig(Grades, Cms).None?
    ensures UrlRegex(UrlConfig(Grades, Lms).value) == "^api/grades/"
    ensures ModulePath(Grades, UrlConfig(Grades, Lms).value, Urls) == "lms.djangoapps.grades.api.urls"
  {
    assert "lms.djangoapps.grades" + "." + "settings.aws" == "lms.djangoapps.grades.settings.aws";
    assert "lms.djangoapps.grades" + "." + "api.urls" == "lms.djangoapps.grades.api.urls";
  }

  /** Theming has no relative path, so both projects fall back to its `urls` module. */
  lemma ThemingResolution()
    ensures UrlConfig(Theming, Lms) == UrlConfig(Theming, Cms) == Some(ThemingUrls)
    ensures ModulePath(Theming, ThemingUrls, Urls) == "openedx.core.djangoapps.theming.urls"
    ensures UrlRegex(ThemingUrls) == "^theming/"
    ensures forall st :: SettingsConfig(Theming, Lms, st).None?
  {
    assert "openedx.core.djangoapps.theming" + "." + "urls" == "openedx.core.djangoapps.theming.urls";
  }

  /** ace_common's devstack entry points at its common settings module; it has no URLs. */
  lemma AceCommonResolution()
    ensures SettingsConfig(AceCommon, Lms, Devstack).Some?
    ensures ModulePath(AceCommon, SettingsConfig(AceCommon, Lms, Devstack).value, Settings)
         == "openedx.core.djangoapps.ace_common.settings.common"
    ensures forall pt :: UrlConfig(AceCommon, pt).None?
  {
    assert "openedx.core.djangoapps.ace_common" + "." + "settings.common"
        == "openedx.core.djangoapps.ace_common.settings.common";
  }

  /** All three apps are installed, in order. */
  lemma AppsInstalled()
    ensures PluginApps(Apps) == [
      "lms.djangoapps.grades.apps.GradesConfig",
      "openedx.core.djangoapps.ace_common.apps.AceCommonConfig",
      "openedx.core.djangoapps.theming.apps.ThemingConfig"]
  {
    assert "lms.djangoapps.grades.apps" + "." + "GradesConfig" == "lms.djangoapps.grades.apps.GradesConfig";
    assert "openedx.core.djangoapps.ace_common.apps" + "." + "AceCommonConfig"
        == "openedx.core.djangoapps.ace_common.apps.AceCommonConfig";
    assert "openedx.core.djangoapps.theming.apps" + "." + "ThemingConfig"
        == "openedx.core.djangoapps.theming.apps.ThemingConfig";
    PluginAppsAllIncluded(Apps);
  }

  /** The module path one app contributes for a project and settings type. */
  function SettingsEntry(app: AppConfig, projectType: string, settingsType: string): seq<string> {
    match SettingsConfig(app, projectType, settingsType)
    case None => []
    case Some(config) => [ModulePath(app, config, Settings)]
  }

  /** The settings modules of the three apps are their entries in registration order. */
  lemma AppsSettings(projectType: string, settingsType: string)
    ensures SettingsModulePaths(Apps, projectType, settingsType)
         == SettingsEntry(Grades, projectType, settingsType)
            + SettingsEntry(AceCommon, projectType, settingsType)
            + SettingsEntry(Theming, projectType, settingsType)
  {
    SettingsModulePathsAppend([Grades], [AceCommon, Theming], projectType, settingsType);
    SettingsModulePathsAppend([AceCommon], [Theming], projectType, settingsType);
    assert [Grades] + [AceCommon, Theming] == Apps;
    assert [AceCommon] + [Theming] == [AceCommon, Theming];
  }

  /** The LMS aws settings come from grades and ace_common, in that order. */
  lemma LmsAwsSettings()
    ensures SettingsModulePaths(Apps, Lms, Aws)
         == ["lms.djangoapps.grades.settings.aws", "openedx.core.djangoapps.ace_common.settings.aws"]
  {
    AppsSettings(Lms, Aws);
    GradesResolution();
    assert SettingsEntry(Theming, Lms, Aws) == [];
    assert "openedx.core.djangoapps.ace_common" + "." + "settings.aws"
        == "openedx.core.djangoapps.ace_common.settings.aws";
  }

  /** Only grades extends the LMS test settings; only ace_common the devstack ones. */
  lemma LmsTestAndDevstackSettings()
    ensures SettingsModulePaths(Apps, Lms, Test) == ["lms.djangoapps.grades.settings.test"]
    ensures SettingsModulePaths(Apps, Lms, Devstack) == ["openedx.core.djangoapps.ace_common.settings.common"]
  {
    AppsSettings(Lms, Test);
    AppsSettings(Lms, Devstack);
    AceCommonResolution();
    assert SettingsEntry(Theming, Lms, Test) == [] && SettingsEntry(Theming, Lms, Devstack) == [];
    assert SettingsEntry(AceCommon, Lms, Test) == [] && SettingsEntry(Grades, Lms, Devstack) == [];
    assert "lms.djangoapps.grades" + "." + "settings.test" == "lms.djangoapps.grades.settings.test";
  }

  /** No app extends the CMS settings. */
  lemma CmsSettings(settingsType: string)
    ensures SettingsModulePaths(Apps, Cms, settingsType) == []
  {
    AppsSettings(Cms, settingsType);
  }

  /** The URL pattern one app contributes for a project type. */
  function UrlEntry(app: AppConfig, projectType: string): seq<UrlPattern> {
    match UrlConfig(app, projectType)
    case None => []
    case Some(config) =>
      [UrlPattern(UrlRegex(config), ModulePath(app, config, Urls), Get(config, AppNameKey),
                  if NamespaceKey in config then config[NamespaceKey] else app.name)]
  }

  /** The URL patterns of the three apps are their entries in registration order. */
  lemma AppsUrlPatterns(projectType: string)
    ensures UrlPatterns(Apps, projectType)
         == UrlEntry(Grades, projectType) + UrlEntry(AceCommon, projectType) + UrlEntry(Theming, projectType)
  {
    UrlPatternsSplit([], Grades, [AceCommon, Theming], projectType);
    UrlPatternsSplit([], AceCommon, [Theming], projectType);
    UrlPatternsSplit([], Theming, [], projectType);
    assert [] + [Grades] + [AceCommon, Theming] == Apps;
    assert [] + [AceCommon] + [Theming] == [AceCommon, Theming];
    assert [] + [Theming] + [] == [Theming];
  }

  /** The theming pattern, mounted for both projects. */
  lemma ThemingPattern(projectType: string)
    requires projectType == Lms || projectType == Cms
    ensures UrlEntry(Theming, projectType)
         == [UrlPattern("^theming/", "openedx.core.djangoapps.theming.urls", None, "theming")]
  {
    ThemingResolution();
  }

  /** The URL patterns of the three apps: grades and theming for the LMS,
      theming alone for the CMS. */
  lemma UrlPatternsPerProject()
    ensures UrlPatterns(Apps, Lms) == [
      UrlPattern("^api/grades/", "lms.djangoapps.grades.api.urls", None, "grades_api"),
      UrlPattern("^theming/", "openedx.core.djangoapps.theming.urls", None, "theming")]
    ensures UrlPatterns(Apps, Cms) == [
      UrlPattern("^theming/", "openedx.core.djangoapps.theming.urls", None, "theming")]
  {
    AppsUrlPatterns(Lms);
    AppsUrlPatterns(Cms);
    ThemingPattern(Lms);
    ThemingPattern(Cms);
    GradesResolution();
    AceCommonResolution();
  }

  /** Every URL configuration here declares its namespace, so the write-back
      leaves the app configs as they are. */
  lemma WriteBackKeepsFixtures()
    ensures DefaultNamespaces(Apps, Lms) == Apps
    ensures DefaultNamespaces(Apps, Cms) == Apps
  {
    WithUrlConfigUnchanged(Grades, Lms);
    WithUrlConfigUnchanged(Theming, Lms);
    WithUrlConfigUnchanged(Theming, Cms);
    assert WithDefaultNamespace(ThemingUrls, Theming.name) == ThemingUrls;
    assert WithDefaultNamespace(UrlConfig(Grades, Lms).value, Grades.name) == UrlConfig(Grades, Lms).value;
  }

  /** The LMS URL configuration end to end: a registry holding the three
      apps yields the grades and theming patterns. */
  method LmsUrlPatterns() returns (patterns: seq<UrlPattern>)
    ensures patterns == [
      UrlPattern("^api/grades/", "lms.djangoapps.grades.api.urls", None, "grades_api"),
      UrlPattern("^theming/", "openedx.core.djangoapps.theming.urls", None, "theming")]
  {
    var registry := new DjangoAppRegistry(map[Lms := Apps, Cms := [Theming]]);
    patterns := registry.GetPluginUrlPatterns(Lms);
    UrlPatternsPerProject();
  }
}
