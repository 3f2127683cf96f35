# Cookie-consent customisation draft

This project models the `Customization` component of the cookie-though banner
(`src/components/customization/index.tsx`). The component keeps a draft of cookie
options (`{id, isEnabled}`) and a flag `isActive` that says whether the
customisation panel is expanded. It asks the host to show or hide the banner
through `setVisible`, and it commits preference records
(`{cookieOptions, isCustomised}`) through `setCookiePreferences`.

The Dafny module `Customization` (file `customization.dfy`) holds:

- the two records, `CookieOption` and `CookiePreferences`, as datatypes;
- the pure parts of the component as functions:
  - `IsAnOptionEnabled` models `cookieOptions.some(...)`;
  - `AcceptButtonLabel` models the memoised label;
  - `SetAllEnabled` models `options.map(option => ({...option, isEnabled}))`;
  - `ToggledAt` and `AcceptedOptions` are the specifications of the toggle and accept handlers;
- the class `Component`, one mounted component. Its fields are:
  - `options`, the draft;
  - `isActive`, the panel flag;
  - `visible`, the last visibility requested through `setVisible`;
  - `commits`, the log of records passed to `setCookiePreferences`, in order.

  Its methods are the event handlers. Each handler is a sequence of immediate
  assignments. A ghost field `catalog` records the ids the component was
  mounted with. `Valid()` states that the draft and every committed record
  carry exactly those ids, in order, and that every commit is marked as
  customised. Every handler preserves `Valid()`.

## Behaviour of the component worth noting

- `declineAllOptions` sets every option to false (`index.tsx:39`). No category is exempt.
- No handler checks whether a commit has already happened. Each call of `acceptOptions` or `declineAllOptions` calls `setCookiePreferences` once (`index.tsx:43`, `:55`), so `Accept` and `DeclineAll` each append exactly one record.
- With the panel expanded, the label is "Accept" even when nothing is enabled (`index.tsx:26`). Accepting then commits the all-disabled draft (`index.tsx:48`, `:55`).

## Model

| member | source | states |
|---|---|---|
| `Customization.IsAnOptionEnabled` | src/components/customization/index.tsx:17-19 | true exactly when some index holds an enabled option, so false for the empty list |
| `Customization.AcceptButtonLabel` | src/components/customization/index.tsx:25-31 | the label is one of "Accept all" and "Accept"; it is "Accept all" exactly when the panel is closed and every option is disabled |
| `Customization.SetAllEnabled` | src/components/customization/index.tsx:39 | same length; every option keeps its id at its index and gets the given flag |
| `Customization.ToggledAt` | src/components/customization/index.tsx:33-36 | same length; the option at the key keeps its id and has its flag negated; every other index is unchanged |
| `Customization.AcceptedOptions` | src/components/customization/index.tsx:46-51 | the ids and their order are kept; with the panel closed and nothing enabled, every committed option is enabled; otherwise the draft is committed as it stands |
| `Customization.ToggleTwiceRestores` | src/components/customization/index.tsx:33-36 | toggling the same index twice gives back the original draft |
| `Customization.ToggleKeepsIds` | src/components/customization/index.tsx:33-36 | toggling one option keeps the list of ids and their order |
| `Customization.SetAllKeepsIds` | src/components/customization/index.tsx:39 | overwriting every flag keeps the list of ids and their order |
| `Customization.LabelAgreesWithAccept` | src/components/customization/index.tsx:25-56 | when the label reads "Accept all", accepting commits every option enabled with its id kept; when it reads "Accept", accepting commits the draft unchanged |
| `Customization.AcceptAllIdempotent` | src/components/customization/index.tsx:46-56 | for every draft, a second accept with the panel closed commits the same options as the first |
| `Customization.Component.constructor` | src/components/customization/index.tsx:21-23 | the draft starts as the options given on mount, the panel closed and no commit made |
| `Customization.Component.ToggleCustomization` | src/components/customization/index.tsx:62 | the panel flag is negated; the draft, the mounted ids, the visibility and the commit log do not change |
| `Customization.Component.Toggle` | src/components/customization/index.tsx:33-36 | only the option at the key changes: its flag is negated and its id kept; the length, the panel flag, the visibility and the commit log are unchanged |
| `Customization.Component.DeclineAll` | src/components/customization/index.tsx:38-44 | the draft keeps its length and ids and has every option disabled; the panel is closed and the banner hidden; exactly one record `{draft, isCustomised: true}` is appended to the commit log |
| `Customization.Component.Accept` | src/components/customization/index.tsx:46-56 | if the label read "Accept all", every option is enabled with its id kept; if it read "Accept", the draft is unchanged; either way the panel is closed, the banner hidden and exactly one record `{draft, isCustomised: true}` is appended |
| `Customization.AcceptAllOnFreshBanner` | src/tests/app.test.tsx:54-84 | a banner mounted with the four categories essential, functional, analytics and marketing all disabled shows "Accept all"; clicking it commits exactly one record, with all four enabled and `isCustomised` true |

## Left out

- Rendering is not modelled: `ToggleButton`, `TinyCollapse`, `Options`, `Button` and the CSS modules are views only.
- `Options` (`src/components/customization/options.tsx`) only matters because it passes the index of a rendered option to `onToggle` (`options.tsx:21`). With an index outside the list, `toggleOption` reads `isEnabled` of `undefined` and throws a TypeError before anything is assigned (`index.tsx:34`). `Component.Toggle` requires `key < |options|`, which excludes exactly that error path. No caller reaches it, because only map indices are passed.
- The `useLocalStorage` hook is not part of this model. `setCookiePreferences` is modelled as appending to the `commits` log. Cookie and local-storage access, the storage fallback, merging stored records with the declared policies, and the mount-time visibility decision all live in that hook and are not modelled.
- `setVisible` belongs to the host. It is modelled as the field `visible`, set to the value last requested. The constructor takes the host's initial visibility as a parameter.
- Preact hook semantics are not modelled. Each state setter is treated as an immediate assignment. `useMemo` caching and re-render timing are left out. The label is a pure function of the panel flag and the draft.
- Aliasing is not modelled. The draft is a `seq` value, but in the source `toggleOption` overwrites an element of the state array in place (`index.tsx:34`). That array is shared with other objects:
  - at mount, it is the `cookieOptions` prop itself (`index.tsx:22`);
  - after an "Accept" commit, the committed record holds the state array itself (`index.tsx:47`, `:55`);
  - after an accept-all or a decline commit, the committed array becomes the new state (`index.tsx:40`, `:50`).

  A later toggle in the source therefore also changes the prop or the committed record. The model does not show this.
- The `catalog` field and `Ids` function are specification helpers. They have no counterpart in the source.
