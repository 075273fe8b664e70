# Django app plugins, course-outline milestones and expected redirects

A Dafny model of three pieces of edx-platform logic.

- **The Django app plugin registry** (`openedx/core/djangolib/django_plugins.py`).
  A plugin app's `AppConfig` class declares a nested `plugin_app` dictionary.
  It is keyed by config kind (`url_config`, `settings_config`), then by project
  type (`lms.djangoapp`, `cms.djangoapp`), then, for settings, by settings type
  (`aws`, `common`, `devstack`, `test`). For one project type the registry
  resolves it into three things:
  - the `"module.Class"` entries added to INSTALLED_APPS;
  - the dotted paths of the plugin settings modules to apply;
  - one URL pattern per app: an anchored regex, a URLs module path, an
    `app_name` and a namespace.

  URL iteration writes a default namespace (the app name) back into each
  URL configuration it visits.
- **The course outline's milestone map**
  (`openedx/features/course_experience/views/course_outline.py`). Every
  subsection that has a prerequisite maps to whether the user has completed it.
- **`expected_redirect_url`** (`openedx/tests/util/__init__.py`). This is the
  redirect URL the unit tests expect. Django before 1.9 redirects to absolute
  URLs; later versions redirect to relative URLs with a leading slash.

Files:

- `wrappers.dfy`: `Option`, and `Get` for `dict.get`.
- `django_plugins.dfy`: module `DjangoPlugins`. It holds the data model, the
  pure lookups and list builders with their lemmas, and the class
  `DjangoAppRegistry`. The class's `available` field holds the app configs
  registered for each project type. `AppConfigs` models `_get_app_configs`.
  The two iteration methods are loops with `continue`, proved against the
  pure functions. `IterInstallableUrls` performs the namespace write-back
  on `available`.
- `plugin_fixtures.dfy`: module `PluginFixtures`. It holds the `plugin_app`
  descriptors of the grades, ace_common and theming apps as constants, and
  states what they resolve to.
- `course_outline.dfy`: module `CourseOutline`.
- `test_util.dfy`: module `TestUtil`. `django.VERSION` is a parameter, and
  Python's tuple order is modelled by `TupleLess`.

## Model

| member | source | states |
|---|---|---|
| `DjangoPlugins.ModulePath` | openedx/core/djangolib/django_plugins.py:330-334 | the module path is the app name, a dot, then the configured `relative_path`; without one it falls back to `settings` for settings and `urls` for URLs |
| `DjangoPlugins.ModulePathInjective` | openedx/core/djangolib/django_plugins.py:330-334 | within one app, two configurations give the same module path exactly when their relative paths (after defaulting) agree |
| `DjangoPlugins.SettingsConfig` | openedx/core/djangolib/django_plugins.py:337-341 | the lookup is None exactly when `plugin_app`, `settings_config`, the project type or the settings type is missing; otherwise it is the innermost dict |
| `DjangoPlugins.UrlConfig` | openedx/core/djangolib/django_plugins.py:344-347 | the lookup is None exactly when `plugin_app`, `url_config` or the project type is missing; otherwise it is the project type's dict |
| `DjangoPlugins.UrlRegex` | openedx/core/djangolib/django_plugins.py:358-360 | `"^" + regex` when a non-empty regex is configured, the empty string otherwise |
| `DjangoPlugins.UrlRegexAnchored` | openedx/core/djangolib/django_plugins.py:358-360 | the regex is empty, or it is one `^` followed by exactly the configured regex |
| `DjangoPlugins.Upper` | openedx/core/djangolib/django_plugins.py:351-352 | `upper()` keeps the length and maps each character on its own |
| `DjangoPlugins.UpperFixedPoints` | openedx/core/djangolib/django_plugins.py:352 | a string equals its `upper()` exactly when it holds no lower-case letter |
| `DjangoPlugins.IsUppercaseName` | openedx/core/djangolib/django_plugins.py:351-352 | `_is_uppercase`: a name passes exactly when it has no lower-case letter and does not start with `_` |
| `DjangoPlugins.UppercaseAttributes` | openedx/core/djangolib/django_plugins.py:350-355 | every yielded name is a listed name that passes the filter, paired with that attribute's value; no more pairs than names |
| `DjangoPlugins.UppercaseAttributesAppend` | openedx/core/djangolib/django_plugins.py:354-355 | the attributes of a concatenation of name lists are those of each part, in order |
| `DjangoPlugins.UppercaseAttributesSplit` | openedx/core/djangolib/django_plugins.py:350-355 | each listed name yields its (name, value) pair in its place exactly when it passes the filter, so the output is an order-preserving subsequence |
| `DjangoPlugins.IsIncluded` | openedx/core/djangolib/django_plugins.py:248 | the `getattr(app_config, "plugin_app", True)` filter: a config is left out exactly when its `plugin_app` is the empty dictionary |
| `DjangoPlugins.ClassPath` | openedx/core/djangolib/django_plugins.py:243-246 | the entry is the class's module, a dot, then the class name |
| `DjangoPlugins.PluginApps` | openedx/core/djangolib/django_plugins.py:242-249 | at most one INSTALLED_APPS entry per app config |
| `DjangoPlugins.PluginAppsAppend` | openedx/core/djangolib/django_plugins.py:242-249 | the entries for a concatenation are those of each part, in order |
| `DjangoPlugins.PluginAppsSplit` | openedx/core/djangolib/django_plugins.py:242-249 | each config contributes `"module.Class"` in its place unless its `plugin_app` exists and is falsy; a config without the attribute is included |
| `DjangoPlugins.PluginAppsAllIncluded` | openedx/core/djangolib/django_plugins.py:242-249 | when no config is excluded, the entries are the configs' `"module.Class"` strings, one for one |
| `DjangoPlugins.SettingsModulePaths` | openedx/core/djangolib/django_plugins.py:288-301 | no more settings modules than app configs |
| `DjangoPlugins.SettingsModulePathsAppend` | openedx/core/djangolib/django_plugins.py:288-301 | the settings modules for a concatenation are those of each part, in order |
| `DjangoPlugins.SettingsModulePathsSplit` | openedx/core/djangolib/django_plugins.py:288-301 | each config yields its settings module path in its place exactly when it has an entry for the (project type, settings type) pair |
| `DjangoPlugins.WithDefaultNamespace` | openedx/core/djangolib/django_plugins.py:316 | after the write-back the namespace is present: the prior one if there was one, otherwise the app name; every other key is unchanged |
| `DjangoPlugins.WithDefaultNamespaceIdempotent` | openedx/core/djangolib/django_plugins.py:316 | a second write-back, with any app name, changes nothing |
| `DjangoPlugins.WithUrlConfig` | openedx/core/djangolib/django_plugins.py:316 | storing a URL configuration changes only that project type's entry; other project types, the settings and the class identity stay as they were |
| `DjangoPlugins.DefaultNamespace` | openedx/core/djangolib/django_plugins.py:310-316 | the write-back on one config keeps whether it has a URL configuration for the project type, leaves that configuration with a namespace, and keeps the class identity and whether the app is installed |
| `DjangoPlugins.DefaultNamespaces` | openedx/core/djangolib/django_plugins.py:309-316 | the write-back touches each app config on its own and keeps their number |
| `DjangoPlugins.DefaultNamespaceEffect` | openedx/core/djangolib/django_plugins.py:309-316 | after the write-back an app has a URL configuration exactly when it had one; its namespace is the prior one or the app name; no other key, project type or settings entry changes |
| `DjangoPlugins.WithUrlConfigUnchanged` | openedx/core/djangolib/django_plugins.py:316 | writing back the URL configuration an app already has leaves the app config identical |
| `DjangoPlugins.DefaultNamespaceIdempotent` | openedx/core/djangolib/django_plugins.py:316 | the write-back is idempotent on one app config |
| `DjangoPlugins.DefaultNamespacesIdempotent` | openedx/core/djangolib/django_plugins.py:309-316 | the write-back over all app configs is idempotent |
| `DjangoPlugins.InstallableUrls` | openedx/core/djangolib/django_plugins.py:309-323 | at most one URL per app config, and every yielded configuration has a namespace |
| `DjangoPlugins.InstallableUrlsAppend` | openedx/core/djangolib/django_plugins.py:309-323 | the URLs for a concatenation are those of each part, in order |
| `DjangoPlugins.InstallableUrlsSplit` | openedx/core/djangolib/django_plugins.py:309-323 | each config yields (URLs module path, namespaced configuration) in its place exactly when it has a URL configuration for the project type; the rest are skipped |
| `DjangoPlugins.InstallableUrlsAfterWriteBack` | openedx/core/djangolib/django_plugins.py:309-323 | iterating again over the written-back app configs yields the same URLs |
| `DjangoPlugins.WrittenBackPrefix` | openedx/core/djangolib/django_plugins.py:309-316 | part-way through the loop the first `i` configs are written back and the rest are untouched; at the ends this is the input and the full write-back |
| `DjangoPlugins.InstallStep` | openedx/core/djangolib/django_plugins.py:309-323 | one loop step either skips a config without a URL configuration and leaves it as it is, or yields its URL and writes back its namespace |
| `DjangoPlugins.ToUrlPattern` | openedx/core/djangolib/django_plugins.py:271-278 | one `url(...include(...))`: the module path and namespace are the yielded ones, `app_name` is present exactly when configured, and the regex is empty or `^` + the configured regex |
| `DjangoPlugins.UrlPatterns` | openedx/core/djangolib/django_plugins.py:270-280 | one URL pattern per installable URL |
| `DjangoPlugins.UrlPatternsSplit` | openedx/core/djangolib/django_plugins.py:270-280 | each app with a URL configuration contributes one pattern in its place: its anchored regex, its URLs module, its `app_name` if any, and its namespace or else its app name |
| `DjangoPlugins.DjangoAppRegistry.constructor` | openedx/core/djangolib/django_plugins.py:325-327 | the registry holds the app configs discovery registered per project type |
| `DjangoPlugins.DjangoAppRegistry.AppConfigs` | openedx/core/djangolib/django_plugins.py:325-327 | the app configs registered for the project type, none for an unknown one |
| `DjangoPlugins.DjangoAppRegistry.IterPluginSettings` | openedx/core/djangolib/django_plugins.py:282-301 | the loop with `continue` yields exactly the settings module paths of the registered app configs, in order |
| `DjangoPlugins.DjangoAppRegistry.IterInstallableUrls` | openedx/core/djangolib/django_plugins.py:303-323 | the loop yields exactly the installable URLs of the registered configs and writes the default namespaces back into that project type's configs; other project types are unchanged |
| `DjangoPlugins.DjangoAppRegistry.GetPluginUrlPatterns` | openedx/core/djangolib/django_plugins.py:264-280 | the patterns are those of the registered configs, and the registry ends in the written-back state |
| `PluginFixtures.GradesResolution` | lms/djangoapps/grades/apps.py:17-34 | grades resolves LMS aws settings to `lms.djangoapps.grades.settings.aws`, its LMS URLs to `lms.djangoapps.grades.api.urls` at `^api/grades/`, and nothing for the CMS or devstack |
| `PluginFixtures.ThemingResolution` | openedx/core/djangoapps/theming/apps.py:6-16 | theming shares one URL configuration between LMS and CMS; without a relative path it resolves to `openedx.core.djangoapps.theming.urls` at `^theming/` |
| `PluginFixtures.AceCommonResolution` | openedx/core/djangoapps/ace_common/apps.py:14-25 | ace_common's devstack entry resolves to its common settings module; it has no URL configuration |
| `PluginFixtures.AppsInstalled` | openedx/core/djangolib/django_plugins.py:242-249 | the three apps are installed as `module.Class` strings, in order |
| `PluginFixtures.AppsSettings` | openedx/core/djangolib/django_plugins.py:288-301 | the three apps' settings modules are their own entries in registration order |
| `PluginFixtures.LmsAwsSettings` | lms/djangoapps/grades/apps.py:27-33 | the LMS aws settings come from grades and then ace_common |
| `PluginFixtures.LmsTestAndDevstackSettings` | openedx/core/djangoapps/ace_common/apps.py:17-25 | only grades extends the LMS test settings; only ace_common extends devstack, through its common module |
| `PluginFixtures.CmsSettings` | openedx/core/djangolib/django_plugins.py:288-301 | none of the three apps extends any CMS settings |
| `PluginFixtures.AppsUrlPatterns` | openedx/core/djangolib/django_plugins.py:270-280 | the three apps' URL patterns are their own entries in registration order |
| `PluginFixtures.ThemingPattern` | openedx/core/djangoapps/theming/apps.py:6-16 | the theming pattern is the same for LMS and CMS |
| `PluginFixtures.UrlPatternsPerProject` | openedx/core/djangolib/django_plugins.py:270-280 | the LMS mounts the grades and theming patterns; the CMS mounts theming alone |
| `PluginFixtures.WriteBackKeepsFixtures` | openedx/core/djangolib/django_plugins.py:316 | every fixture URL configuration declares its namespace, so the write-back leaves the configs unchanged |
| `PluginFixtures.LmsUrlPatterns` | openedx/core/djangolib/django_plugins.py:264-280 | end to end, a registry holding the three apps returns the grades and theming patterns for the LMS |
| `CourseOutline.ContentIdList` | openedx/features/course_experience/views/course_outline.py:51-54 | the unfulfilled ids are the milestones' `content_id`s, one per milestone, in order |
| `CourseOutline.ContentIdListMembers` | openedx/features/course_experience/views/course_outline.py:51-58 | an id is in the id list exactly when some milestone carries it |
| `CourseOutline.CompletionMap` | openedx/features/course_experience/views/course_outline.py:56-61 | every prerequisite's id is a key, and each key's flag is whether the id is absent from the unfulfilled ids |
| `CourseOutline.CompletionMapSpec` | openedx/features/course_experience/views/course_outline.py:56-61 | the map built entry by entry (later duplicates overwriting) has the prerequisites' ids as keys, each valued by its absence from the unfulfilled ids |
| `CourseOutline.GetContentMilestones` | openedx/features/course_experience/views/course_outline.py:44-63 | the keys are exactly the `content_id`s of the course's prerequisites, and `completed_prereqs` is true exactly when the id is not among the user's unfulfilled ones |
| `CourseOutline.UnfulfilledOnlyNotKey` | openedx/features/course_experience/views/course_outline.py:56-61 | an id that appears only in the unfulfilled list never becomes a key |
| `CourseOutline.NothingUnfulfilled` | openedx/features/course_experience/views/course_outline.py:51-58 | with no unfulfilled milestone, every entry is completed |
| `CourseOutline.EverythingUnfulfilled` | openedx/features/course_experience/views/course_outline.py:51-58 | when every prerequisite id is unfulfilled, no entry is completed |
| `CourseOutline.OrderAndDuplicatesIrrelevant` | openedx/features/course_experience/views/course_outline.py:51-61 | the map depends only on the sets of ids, not on the order or repetition of either list |
| `CourseOutline.DuplicatePrerequisite` | openedx/features/course_experience/views/course_outline.py:56-61 | listing a prerequisite twice gives the same single key with the same value |
| `CourseOutline.OutlineFragment` | openedx/features/course_experience/views/course_outline.py:29-40 | with no block tree (absent or empty) there is no fragment; otherwise the context carries the block tree and exactly the map `get_content_milestones` returns, keyed by the prerequisites' ids |
| `TestUtil.TupleLessIrreflexive` | openedx/tests/util/__init__.py:21 | no version tuple is below itself |
| `TestUtil.TupleLessTransitive` | openedx/tests/util/__init__.py:21 | the tuple order is transitive |
| `TestUtil.TupleLessTotal` | openedx/tests/util/__init__.py:21 | any two different version tuples are ordered |
| `TestUtil.TupleLess` | openedx/tests/util/__init__.py:21 | Python's tuple `<`: a proper prefix is smaller, and a smaller non-empty tuple never has a larger first component |
| `TestUtil.RedirectsAbsolute` | openedx/tests/util/__init__.py:21 | `django.VERSION < (1, 9)`: for a major version other than 1, it holds exactly when the major version is below 1 |
| `TestUtil.RedirectsAbsoluteVersions` | openedx/tests/util/__init__.py:21 | a version is below (1, 9) exactly when its major version is below 1, or it is 1 and the minor version is below 9 or missing |
| `TestUtil.KnownVersions` | openedx/tests/util/__init__.py:16-21 | 1.8 redirects to absolute URLs; 1.9, 1.11 and 2.0 to relative ones |
| `TestUtil.ExpectedRedirectUrl` | openedx/tests/util/__init__.py:11-30 | in every branch the expected URL ends with the given relative URL |
| `TestUtil.RelativeRedirect` | openedx/tests/util/__init__.py:26-30 | from 1.9 on, a URL starting with `/` is returned unchanged and any other gets `/` prepended; the result always starts with `/` |
| `TestUtil.RelativeRedirectIdempotent` | openedx/tests/util/__init__.py:26-30 | from 1.9 on, applying the rewrite twice equals applying it once |
| `TestUtil.AbsoluteRedirect` | openedx/tests/util/__init__.py:21-25 | before 1.9, a URL starting with `/` becomes `http://` + host name + URL, and any other is returned unchanged |
| `TestUtil.DefaultHostRedirect` | openedx/tests/util/__init__.py:11-23 | the default host name is `testserver` |

## Left out

- `add_plugin_settings` (django_plugins.py:253-262) is not modelled. It imports the project's settings module and calls each plugin's `plugin_settings` function, both foreign calls. The model stops at the settings module paths that would be imported.
- `DjangoAppRegistry.IterPluginSettings` yields module paths. The real code yields the modules `import_module` returns for those paths.
- Django's `url` and `include` objects are not built. A URL pattern is the record of their arguments (regex, module path, `app_name`, namespace).
- Entry-point discovery (`PluginManager.get_available_plugins`) is not modelled. The registry is constructed with the app configs it would return for each project type.
- Logging is left out.
- The `plugin_app` attribute, when present, is modelled as a dictionary. A non-dictionary value such as `None` or `False` is not represented. Values inside the innermost dictionaries are strings, so a `regex` set to `None` is not represented. It would behave like a missing regex.
- `DjangoPlugins.DjangoAppRegistry.IterInstallableUrls`: the write-back is a value update of that project type's entry. Aliasing is not captured. In the source the updated dict may be shared: theming uses one dict for both `lms` and `cms`, and the dict is the class attribute itself. The shared copies are not updated in the model. Since the write-back is idempotent and keeps an existing namespace, the fixtures are unaffected.
- `DjangoPlugins.DjangoAppRegistry.IterInstallableUrls` returns a list rather than a lazy generator. Its only caller consumes every element, so the final state is the same.
- `DjangoPlugins.Upper` maps only ASCII letters, so it is weaker than Python's `str.upper()`. Non-ASCII case mapping, including changes in length, is out of scope.
- `DjangoPlugins.UrlRegex` always returns `^` + regex for a non-empty regex. Under Python 2 the byte-string template `r'^{}'` cannot format a non-ASCII unicode regex and raises `UnicodeEncodeError`. That error path is not modelled.
- `DjangoPlugins.UppercaseAttributes`: `dir(obj)` is an input, a list of attribute names with their values. Python's attribute lookup and the sorting of `dir` are not modelled.
- `TestUtil.ExpectedRedirectUrl` takes `django.VERSION` as its numeric components. The release-level string (`'final'`) is not represented. It is never reached in a comparison against `(1, 9)`.
- The following parts of `render_to_fragment` (course_outline.py:22-42) are not modelled: CSRF, course access checks, the course overview and template rendering. Only the "no block tree, no fragment" guard and the context's blocks and milestones are modelled.
- A milestone's fields other than `content_id` are not modelled.
- `CourseOutline.GetContentMilestones` maps each id to its completion flag. The source maps it to a one-entry dictionary, `{'completed_prereqs': flag}`.
- The `ready()` hooks of the app configs, the support and certificate views, the rate-limit backend and the UI code are outside this model.
