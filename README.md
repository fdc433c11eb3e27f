# A verified model of the site generator's core

The generator builds a static website out of a site directory. It reads:

- a configuration file;
- templates;
- Markdown pages with YAML front matter;
- two collections of "resources": blog posts and images.

It writes HTML pages, paginated lists, tag pages and RSS feeds into a build directory. A development server watches the site directory, rebuilds what changed, and tells connected browsers to reload.

This project models that core in Dafny:

- front matter splitting;
- the resource builder: loading, sorting, item pages, pagination, the tag index and tag lists, RSS;
- the embed meta tags;
- the page builder and its HTML rewrite;
- the site index;
- the blog and image collections;
- the page extras;
- the file watcher, its event handling, and the static file routes of the dev server;
- the virtual pet script of the site itself.

The Dafny code is split into modules, one per part of the program.

| file | module | models |
|---|---|---|
| `wrappers.dfy` | `Wrappers` | `Option`, `Result`, and errors that are either a propagated failure (`Fail`) or a panic (`Panic`) |
| `paths.dfy` | `Paths` | Rust paths as component sequences, with `with_extension`, `extension`, `file_name`, `strip_prefix`, `join` and display |
| `text.dfy` | `Text` | `split_once`, the Rust and JavaScript `trim`, decimal formatting, and byte-wise string order |
| `html.dfy` | `Html` | an HTML document as a node tree, and the streaming rewriter as a tree rewrite |
| `runs.dfy` | `Runs` | a run of fallible steps: what it wrote before it stopped, and whether it stopped on an error |
| `sorting.dfy` | `Sorting` | the stable `sort_by` on a descending integer key |
| `frontmatter.dfy` | `FrontMatter` | `FrontMatter::parse` (`src/frontmatter.rs`) |
| `resource_model.dfy` | `ResourceModel` | the shared resource types, configuration and hooks (`src/resource.rs`) |
| `embed.dfy` | `Embed` | `EmbedMetadata::build` (`src/resource.rs`) |
| `tagindex.dfy` | `TagIndex` | the tag `BTreeMap` of `build_all` and the tag link list |
| `pagination.dfy` | `Pagination` | `build_list`: page count, chunks, previous and next links, file names |
| `resource.dfy` | `Resource` | `ResourceBuilder`: `get_id`, `load`, `load_all`, `build`, `build_all` |
| `builder.dfy` | `Builder` | `SiteBuilder` of `src/builder.rs`: `new`, `build_page_raw_extra`, `build_page` |
| `lib.dfy` | `Lib` | `Site::new`, lib.rs's own `SiteBuilder`, `build_page` and `build_once` |
| `blog.dfy`, `images.dfy` | `Blog`, `Images` | the two collections and their resource hooks |
| `extras.dfy` | `Extras` | `get_extra` and the `index` sidebar extra |
| `serving.dfy` | `Serving` | `create`, `remove`, `skip_path`, the watcher closure, the broadcast and the file routes |
| `pet.dfy` | `VirtualPet` | the `Pet` class of `site/root/js/pet.js` and its page handlers |

## How the model is built

**External collaborators are parameters.** Code the core calls but does not own becomes a function-typed parameter:

- the file system;
- the Handlebars registry;
- the YAML deserializer;
- the Markdown renderer;
- the HTML parser and serializer;
- URL parsing and joining;
- date formatting;
- the clock;
- the RSS validator.

The model specifies what the core does with whatever these return. Every error a read, a render, a parse or a lookup reports is passed on the way the source passes it on. Writing a file and creating a directory are the exception: they always succeed in the model (see "## Left out").

**Panics are values.** An `expect`, an `unwrap`, or a division by zero is modelled as a `Panic` error. It is not a precondition.

**State changes are imperative.** Code that mutates state is written as methods:

- `ResourceBuilder` is a class with a `loadedMetadata` field.
- The dev server is a class with fields for the site, the peers, the actions attempted and the reloads sent.
- The pet is a class with its fields.
- The attribute setters of the HTML rewriter are methods on an element.

Each loop, such as the load loop, the index walk, the page chunks, the tag lists or the RSS items, is a `for` or `while` loop with its invariants. Each one is proved equal to a specification function. The properties are then proved about that function. The inductive proofs that carry most of the weight are those of the stable sort (`Sorting.SortDescSorted`, `SortDescPermutation`, `SortDescStable`, `SortDescTies`), the tag map (`TagIndex.AggregateSpec`, `TagIndex.TagLinksOrder`), the site index (`Lib.IndexComplete`, `Lib.IndexSound`, `Lib.IndexExact`) and the pagination lemmas (`Pagination.ChunksFlatten`, `Pagination.ChunksSizes`, `Pagination.ListWrites`).

**What a build writes is the result.** A build's observable effect is the sequence of files it writes, in order, together with its final outcome. The model keeps the files written before a failure, because the source does not remove them.

## Model

| member | source | states |
|---|---|---|
| FrontMatter.Block | src/frontmatter.rs:18-19 | there is no front matter exactly when the input does not start with `---\n` or nothing after the first three characters contains `---\n`; otherwise the input is `---`, the metadata (starting with the leftover newline), `---\n` and the content, split at the first closing delimiter |
| FrontMatter.Parse | src/frontmatter.rs:17-31 | without front matter the whole input is the content and there is no data; with it the data is what the deserializer makes of the metadata, the only error is the deserializer's, and the content is a suffix of the input |
| FrontMatter.FirstOccurrence | src/frontmatter.rs:19 | the closing delimiter found is the first one after the opening |
| FrontMatter.RoundTrip | src/frontmatter.rs:17-31 | writing `---\n`, metadata without a delimiter line, `---\n` and content, then parsing, gives back the content and the deserialized metadata |
| Text.SplitOnce | src/builder.rs:147 | no split exactly when the pattern does not occur; otherwise the input is before + pattern + after, with no earlier occurrence |
| Text.Trim | src/builder.rs:168 | trimming yields the empty string exactly when every character is whitespace; otherwise the result starts and ends with a non-whitespace character |
| Text.TrimSlice | src/builder.rs:168 | the trimmed string is a slice `s[i..j]` of the input with only whitespace before `i` and after `j` |
| Text.NatToStringRoundTrip | src/resource.rs:354 | the decimal text of a page number reads back as that number |
| Text.NatToStringInjective | src/resource.rs:354 | distinct page numbers have distinct decimal texts |
| Text.LexLessTotal | src/resource.rs:375 | the `String` order of the tag map is total on distinct strings |
| Text.LexLessTransitive | src/resource.rs:375 | the `String` order of the tag map is transitive |
| Paths.WithExtension | src/resource.rs:248 | replacing an extension keeps every component before the file name and drops the trailing `.` components after it; a path without a file name is returned unchanged |
| Paths.FileNameCurDir | src/resource.rs:194-195 | a trailing `.` component does not change the file name (`a/.` names `a`) |
| Paths.FileNameNone | src/resource.rs:194-195 | the root, `.` and a path ending in `..` have no file name |
| Paths.FileNameNormal | src/resource.rs:194-195 | on a path of normal components the file name is the last component |
| Paths.WithExtensionNoDot | src/resource.rs:248 | for a dot-free name, `with_extension(ext)` appends `.ext`, or leaves the name unchanged for an empty extension |
| Paths.ExtensionOfWithExtension | src/resource.rs:231 | after `with_extension(ext)` the extension of a named path is `ext` |
| Paths.StripPrefix | src/serving.rs:40-42 | stripping succeeds exactly when the prefix leads the path, and the path is then prefix + rest |
| Paths.ParseDisplay | src/lib.rs:99-106 | displaying a normal path and parsing the text back gives the same path |
| Paths.DisplayInjective | src/lib.rs:99-106 | two slash-free component sequences with the same display are equal |
| Paths.JoinName | src/resource.rs:244-249 | joining a single normal name appends that component |
| Sorting.SortDescSorted | src/resource.rs:239 | `sort_by` on a descending key gives a list ordered newest first |
| Sorting.SortDescPermutation | src/resource.rs:239 | `sort_by` gives a permutation of its input |
| Sorting.SortDescStable | src/resource.rs:239 | `sort_by` is stable: the elements with any one key keep their relative order |
| Sorting.SortDescAll | src/resource.rs:239 | every property that holds for all elements before the sort holds for all elements after it |
| Sorting.SortDescMap | src/resource.rs:396-397 | sorting commutes with a map that preserves the key, as the tag links go through `(link, count)` pairs |
| Sorting.SortDescTies | src/resource.rs:384-398 | on an input ordered by a tie-breaker, equal keys leave the sort in tie-breaker order |
| Html.RewriteIdentity | src/builder.rs:136-176 | a rewrite with no prepends, no appends and an identity anchor handler leaves the document unchanged |
| Html.RewriteCountElements | src/builder.rs:136-176 | the rewrite never adds or removes elements of any name |
| Html.RewriteCountRaw | src/builder.rs:136-144 | an HTML snippet the head handler inserts at most once gains one copy per `head` element when inserted, and none otherwise |
| Runs.ThenAssoc | src/resource.rs:284-464 | running stages one after another, each only if the earlier ones succeeded, is associative, so nested stages can be regrouped |
| Runs.ThenDone | src/resource.rs:284-464 | the empty successful stage changes nothing before or after another stage |
| Runs.StepsOk | src/resource.rs:297-299 | a `?` loop succeeds exactly when every step does, and then writes the concatenation of the steps' writes |
| Runs.StepsErr | src/resource.rs:297-299 | a failing `?` loop stops at the first failing step, with the writes of the steps before it and of that step |
| Runs.StepsSticky | src/resource.rs:297-299 | once a `?` loop has failed, later steps change nothing |
| Runs.CollectOk | src/resource.rs:372 | collecting `Result`s succeeds exactly when every element does, element by element |
| Runs.CollectErr | src/resource.rs:372 | a failed collection returns the error of the first failing element |
| Runs.CollectAll | src/resource.rs:372 | the collecting loop computes `Collect` |
| Runs.RunAll | src/resource.rs:297-299 | the `?` loop computes `Steps` |
| Embed.TagsShape | src/resource.rs:96-120 | the meta tags come in their fixed order; `og:title` and `og:site_name` are always present; each optional tag is present exactly when its field is set; the large-image card is present exactly when requested |
| Embed.TagsIncreasing | src/resource.rs:96-120 | the tags are in strictly increasing kind order, so no kind repeats |
| Embed.TagsValues | src/resource.rs:96-120 | the tag of each kind carries exactly its field's value |
| Embed.EmbedHtmlTags | src/resource.rs:96-120 | the HTML built is the rendering of that tag list |
| Embed.PushOptional | src/resource.rs:102-110 | an optional field adds its meta tag exactly when it is set |
| Embed.PushCard | src/resource.rs:115-117 | the card tag is added exactly when a large image is requested |
| Embed.Build | src/resource.rs:96-120 | `build` returns the rendering of the tag list |
| TagIndex.PushSpec | src/resource.rs:378 | `entry(tag).or_default().push(x)` keeps the map sorted and appends `x` to the bucket of `tag` only |
| TagIndex.PushKeys | src/resource.rs:378 | after the push the keys are the old keys plus `tag` |
| TagIndex.HasKeyLookup | src/resource.rs:378 | a tag is a key exactly when its bucket is non-empty |
| TagIndex.PushAllSpec | src/resource.rs:377-378 | pushing a resource under its tags appends it to each tag's bucket once per occurrence of the tag |
| TagIndex.AggregateSpec | src/resource.rs:375-380 | the tag map is sorted, each bucket holds in order the resources carrying that tag, and a tag is a key exactly when some resource carries it |
| TagIndex.OccurrencesNonEmpty | src/resource.rs:375-380 | a bucket is non-empty exactly when some resource lists the tag |
| TagIndex.AggregateTags | src/resource.rs:375-380 | the nested loop builds exactly that map |
| TagIndex.TagLinksOrder | src/resource.rs:384-398 | the tag list has one link per tag, ordered by resource count from most to fewest, with ties in ascending tag order |
| Pagination.PageMaxCovers | src/resource.rs:329 | `page_max` pages hold the list, one page fewer would not, and there are no pages exactly when the list is empty |
| Pagination.PageCountUnique | src/resource.rs:329 | `page_max` is the only page count with that property |
| Pagination.ChunksFlatten | src/resource.rs:332 | the chunks concatenate back to the list |
| Pagination.ChunksSizes | src/resource.rs:332 | there are `page_max` chunks, each of one to `per` items, all but the last exactly `per` |
| Pagination.ListPageAt | src/resource.rs:332-341 | page `k` lists chunk `k` as page `k + 1` of `page_max`, with the previous and next page numbers |
| Pagination.ListPagesShape | src/resource.rs:332-341 | the pages' resources concatenate to the list, in order, and the page numbers run from 1 to `page_max` |
| Pagination.ListPagesLinks | src/resource.rs:330-341 | the first page has no previous page and the last has no next page; every other page links to its neighbours |
| Pagination.EmptyListNoPages | src/resource.rs:329-332 | an empty list has no pages |
| Pagination.PageFileName | src/resource.rs:353-356 | page `n` is written to `<out>/<n>.html`, and different pages go to different files |
| Pagination.BuildList | src/resource.rs:312-361 | `build_list` writes exactly the run of the page steps, and a page size of zero panics as the division does |
| Pagination.ChunkLoop | src/resource.rs:332-358 | the chunk loop, with its `previous` and `next` variables, performs the steps of the page list |
| Pagination.BuildListPage | src/resource.rs:333-357 | one page is rendered in the list template and then in the shell, and written |
| Pagination.PageDataAt | src/resource.rs:333-341 | the data the loop makes for chunk `k` is page `k` of the page list |
| Pagination.PageStepOk | src/resource.rs:342-356 | a successful page renders and writes `<n>.html`, and also `index.html` for the first page, with the same contents |
| Pagination.StepsWrites | src/resource.rs:350-356 | after `n` successful pages, the page files are written in order, after one `index.html` |
| Pagination.ListWrites | src/resource.rs:350-356 | a successful list writes `index.html` holding the first page, then `1.html` to `<page_max>.html`; an empty list writes nothing |
| Pagination.ListFailure | src/resource.rs:342-349 | a failed list stopped at the first page whose template or shell failed; its writes are exactly those of the earlier pages, since the failing page writes nothing |
| Resource.GetId | src/resource.rs:193-199 | the id is the file name with the extension removed; the call panics exactly when no file name is left |
| Resource.GetIdOfFile | src/resource.rs:193-199 | `<id>.md` with a dot-free id has the id `<id>` |
| Resource.GetIdPanics | src/resource.rs:193-199 | the file `...md` loses its whole name to the extension and panics |
| Resource.GetIdValue | src/resource.rs:193-199 | the id is the stem of the file name; a stem `.` gives the file name of the enclosing directory, and a stem `..` panics |
| Resource.GetIdDotStem | src/resource.rs:193-199 | a file `<dir>/<name>/..md` has the id `<name>` |
| Resource.ItemPathShape | src/resource.rs:244-249 | the item page of a plain id is `<build>/<short>/<id>.html`, and distinct plain ids have distinct pages |
| Resource.DottedIdPage | src/resource.rs:244-249 | the page of the id `<stem>.<x>` is the page of `<stem>`, because `with_extension` replaces the suffix |
| Resource.DottedIdsCollide | src/resource.rs:244-249 | `<stem>.<x>` and `<stem>.<y>` are written to the same file |
| Resource.Load | src/resource.rs:202-218 | a loaded resource has its file's id, its deserialized front matter and the rendered Markdown body; a file without front matter fails |
| Resource.LoadAllSound | src/resource.rs:221-241 | every loaded resource comes from a `.md` entry that loads as it, and is not a draft in a release build |
| Resource.LoadAllComplete | src/resource.rs:221-241 | a successful `load_all` holds every loaded `.md` file except release drafts, newest first, as a stable permutation of the load order |
| Resource.ItemStepOk | src/resource.rs:252-282 | a successful item build writes one file, the item's page |
| Resource.ItemWrites | src/resource.rs:297-299 | the item loop writes each resource's page, in order |
| Resource.BuildAllOk | src/resource.rs:284-464 | a successful `build_all` made every template datum, and wrote every item page, then the list, the tag index, the tag lists and the feed |
| Resource.PublishOk | src/resource.rs:363-461 | a successful publication writes the main list, `<short>/tags.html`, the tag lists and then `<long>/rss.xml` |
| Resource.TagsPageOk | src/resource.rs:399-404 | the tag index is one write to `<short>/tags.html` |
| Resource.RssStageOk | src/resource.rs:445-461 | a successful feed is one write to `<long>/rss.xml` |
| Resource.RssItemsShape | src/resource.rs:420-443 | the items succeed exactly when each resource's item does; then there is one item per resource, in order, with its title, its short description and the link `<base url>/<short>/<id>` |
| Resource.InvalidFeedFails | src/resource.rs:459 | a channel the validator rejects fails the feed with `Failed to validate RSS feed` and nothing written, and with it `build_all` |
| Resource.ResourceBuilder.constructor | src/resource.rs:184-190 | a new builder has its configuration and no loaded resources |
| Resource.ResourceBuilder.LoadAll | src/resource.rs:221-241 | the loop leaves `loadedMetadata` as `LoadAllSpec`, including the partial list a failure leaves |
| Resource.ResourceBuilder.BuildAll | src/resource.rs:284-464 | `build_all` writes and returns exactly `BuildAllSpec` of the loaded collection |
| Resource.PublishAll | src/resource.rs:363-461 | the list, tags, tag lists and feed stages write and return `Publish` |
| Resource.BuildTagLists | src/resource.rs:407-417 | the tag list loop runs each tag's list in tag order, stopping at the first failure |
| Resource.BuildTagList | src/resource.rs:408-416 | one tag's list is `build_list` of its bucket under `<short>/tag/<tag>` |
| Resource.BuildFeed | src/resource.rs:420-461 | the items loop, the channel, validation and the write compute `RssStage` |
| Builder.New | src/builder.rs:41-57 | a serving builder, or one without a configured build directory, builds into `<site>/build`; otherwise into the configured directory |
| Builder.AnchorUnchanged | src/builder.rs:145-176 | an anchor without an href, or with an href that has no `$` and no host, is unchanged |
| Builder.AnchorCommand | src/builder.rs:147-160 | an href `cmd$rest` becomes `rest` and gets the command's attribute |
| Builder.AnchorExternal | src/builder.rs:161-172 | a link to another host gets `target="_blank"`, and its `rel` becomes the old `rel` (empty when absent) followed by ` noopener noreferrer`, trimmed; its href is kept |
| Builder.AnchorOtherAttributes | src/builder.rs:145-176 | the anchor handler changes only `href`, `rel` and `target` |
| Builder.Element.constructor | src/builder.rs:146 | a new element has the given attributes |
| Builder.Element.GetAttribute | src/builder.rs:151 | `get_attribute` returns a value exactly when the attribute is set |
| Builder.Element.SetAttribute | src/builder.rs:159 | `set_attribute` sets that one attribute |
| Builder.AnchorHandler | src/builder.rs:145-176 | the handler as written leaves the attributes as `AnchorRewrite` says |
| Builder.ApplyCommand | src/builder.rs:147-160 | the `$` command part of the handler |
| Builder.MarkExternal | src/builder.rs:161-172 | the external link part of the handler |
| Builder.HeadInjection | src/builder.rs:136-144 | every `head` gains exactly one title tag, and one reload script exactly when serving, so a release page carries no more reload scripts than its template |
| Builder.BuildPageRawExtraShape | src/builder.rs:109-192 | the page is rendered in its own template or `base`, under `<site title> / <page title>` or the site title; a render or parse error is returned as it is; the rewritten page is minified exactly when not serving |
| Builder.BuildPageShape | src/builder.rs:195-226 | a page missing from the index panics; a page without front matter is built as with the default metadata, its rendered Markdown written to its `.html` file; a plain page name is written to `<build>/<name>.html` |
| Builder.PageFileOf | src/builder.rs:214 | the output file of a plain page name is `<build>/<name>.html` |
| Lib.BuildIndex | src/lib.rs:71-109 | each directory walk loop computes `IndexSpec` |
| Lib.IndexSticky | src/lib.rs:73-74 | an entry error or a failed prefix strip ends the walk with that error |
| Lib.IndexAllRead | src/lib.rs:71-109 | a successful walk read every entry, and each selected file lies under the root |
| Lib.IndexStep | src/lib.rs:91-109 | one more entry of a walk either leaves the index unchanged or sets that entry's key |
| Lib.IndexKeysStep | src/lib.rs:91-109 | one more entry keeps every earlier key |
| Lib.IndexComplete | src/lib.rs:91-109 | every selected file of a successful walk has its key in the index |
| Lib.IndexSound | src/lib.rs:91-109 | every key of the index maps to the path of a selected file with that key |
| Lib.IndexKeyInjective | src/lib.rs:99-106 | two files with the same extension and the same key are the same file |
| Lib.IndexExact | src/lib.rs:91-109 | on a well-formed walk each selected file is indexed under its own key, mapped to its own path |
| Lib.NewSite | src/lib.rs:64-117 | `Site::new` reads and parses `config.yaml`, then indexes the `.hbs` templates and then the `.md` pages, each failure reported with its own message |
| Lib.BuildPathInsideSite | src/lib.rs:148-151 | without an absolute configured path, the build directory is lexically under the site directory: the site path is a component prefix of it (a configured `..` is kept as a component, so on disk it may lie elsewhere) |
| Lib.NewBuilder | src/lib.rs:147-160 | lib.rs's builder keeps its site and local mode, and builds into the configured or default build directory |
| Lib.TemplateName | src/lib.rs:213 | a page renders in its own template, or `base` by default |
| Lib.PageTitleShape | src/lib.rs:217-220 | the title starts with the site title and adds ` / <page title>` only when the page has one; different page titles give different titles |
| Lib.BaseHref | src/lib.rs:228-231 | the base is the local-mode base or the configured base URL |
| Lib.OldHeadInjection | src/lib.rs:225-235 | every `head` gains exactly one title and one base tag, and no `head` is added or removed |
| Lib.BuildPageTarget | src/lib.rs:201-258 | a missing page panics; a built plain page goes to `<build>/<name>.html` |
| Lib.BuildOnce | src/lib.rs:120-128 | a failed prepare builds nothing; otherwise pages are built in an order not fixed, each indexed page at most once, every write being that page's build; success built every indexed page; a failure is the error of the page after the last write |
| Blog.MethodsBehave | src/blog.rs:61-85 | the short description is the description; the template data fails exactly when the CDN URL does; the fit defaults to `cover` and the position to `50% 50%` |
| Blog.BuildBlog | src/blog.rs:11-32 | a load error is returned with nothing written; otherwise the writes are those of `build_all` on the loaded posts |
| Images.MethodsBehave | src/images.rs:56-67 | the short description is the description or empty; `src` is the CDN URL of the file, and a CDN failure is the hook's failure |
| Images.ConfigPaths | src/images.rs:14-27 | images are read from `images`, their pages go to `i`, and the list and feed go to `images` |
| Images.BuildImages | src/images.rs:13-34 | a load error is returned with nothing written; otherwise the writes are those of `build_all` on the loaded images |
| Extras.GetExtra | src/extras.rs:12-17 | `index` is the only extra name, and it names the sidebar extra |
| Extras.Sidebar | src/extras.rs:31 | the sidebar lists the first three loaded posts, or all of them when there are fewer |
| Extras.SidebarMostRecent | src/extras.rs:26-31 | on a collection sorted newest first, no post left out is newer than a post shown |
| Extras.AppendToContent | src/extras.rs:35-44 | the rewrite keeps the number and order of the top-level nodes, each rewritten on its own by the node handler |
| Extras.AppendCount | src/extras.rs:38-41 | the sidebar appears once more in the document for each `#content` element |
| Extras.AppendToContentNodeShape | src/extras.rs:38-41 | an element keeps its tag and attributes and gets the sidebar as its last child exactly when it is `#content` |
| Extras.IndexErrors | src/extras.rs:20-45 | a render error comes first, then a parse error; otherwise the page is the serialized rewrite |
| Serving.Rel | src/serving.rs:40-42 | the relative path exists exactly when the site directory leads the path |
| Serving.SkipPathUnder | src/serving.rs:129-131 | a path is skipped exactly when it lies under the build directory |
| Serving.ClassifyFirstMatch | src/serving.rs:54-86 | a path's kind is given by the first layout directory that leads it, in the source's order; `remove` never classifies a path as the configuration |
| Serving.RunActions | src/serving.rs:45-126 | the actions succeed exactly when each does; a failure stops at the first failing action |
| Serving.RunActionsFailsAt | src/serving.rs:45-126 | a failure at action `k` attempted exactly the first `k + 1` actions |
| Serving.DirectoryIgnored | src/serving.rs:51-53 | a directory is ignored by `create` and `remove` |
| Serving.CreatePage | src/serving.rs:54-63 | a created page is indexed under its extensionless name, pointing at the file; it is built, and the build's outcome is the result, exactly when building is asked for |
| Serving.RemovePage | src/serving.rs:96-101 | a removed page leaves the index, its `.html` in the build directory is the one file removed, and a failure to remove it names the source path |
| Serving.RemovedPageFile | src/serving.rs:100 | the deleted file of `<dir>/<name>.md` is `<build>/<dir>/<name>.html` |
| Serving.CreateConfig | src/serving.rs:73-76 | a changed configuration replaces the site configuration and rebuilds every page |
| Serving.SkippedEvents | src/serving.rs:164-207 | events in the build directory, and events of other kinds, change nothing and reload nothing |
| Serving.RenameIsCreateThenRemove | src/serving.rs:195-206 | a rename creates the new path without building, then removes the old |
| Serving.RenamePageNotBuilt | src/serving.rs:195-206 | renaming a page to a page maps the new name to the new file and drops the old name, removes one file, and builds no page |
| Serving.NotFound | src/serving.rs:293-305 | a missing file gets status 404 and the build's `404.html`, or `404 Not Found` |
| Serving.ResolveExisting | src/serving.rs:265-272 | an existing file is served as is |
| Serving.ResolveHtml | src/serving.rs:265-272 | a missing path is served from the file with `.html` added |
| Serving.ResolveDirectory | src/serving.rs:265-272 | a directory is served from its `index.html` |
| Serving.AbsoluteRequestLeavesBuildDirectory | src/serving.rs:265 | a request path `//x` joins to the absolute path `/x`, outside the build directory |
| Serving.ParentRequestLeavesBuildDirectory | src/serving.rs:265 | a request path `/../x` names `x` beside the build directory |
| Serving.ServeRequest | src/serving.rs:253-305 | an undecodable URL panics; `static/_dev.js` gets the reload script; an existing resolved file gets its contents or a 500; anything else gets the 404 route |
| Serving.PageBuilds | src/serving.rs:143-147 | one page build per name, in order |
| Serving.IterationOrder | src/serving.rs:143 | a `HashMap` visits each key exactly once, in some order |
| Serving.DevServer.constructor | src/serving.rs:138-140 | a new server has the builder's site and build directory, no peers and nothing performed |
| Serving.DevServer.PerformAll | src/serving.rs:45-126 | the actions are attempted in order up to the first failure |
| Serving.DevServer.Create | src/serving.rs:45-89 | `create` leaves the site and the attempted actions as `CreateSpec` says |
| Serving.DevServer.CreateKind | src/serving.rs:54-88 | `create` of each kind of file |
| Serving.DevServer.Remove | src/serving.rs:92-126 | `remove` leaves the site and the attempted actions as `RemoveSpec` says |
| Serving.DevServer.RemoveKind | src/serving.rs:96-125 | `remove` of each kind of file |
| Serving.DevServer.HandleEvent | src/serving.rs:164-208 | the watcher closure handles an event as `HandleSpec` says |
| Serving.DevServer.HandleRename | src/serving.rs:195-206 | a rename is handled as `RenameSpec` says |
| Serving.DevServer.Move | src/serving.rs:199-205 | the create and remove of a rename |
| Serving.DevServer.HandleChange | src/serving.rs:165-194 | a write, a create or a remove |
| Serving.DevServer.BroadcastReload | src/serving.rs:209-227 | every connected browser is sent one reload, each exactly once, and all peers are dropped |
| Serving.DevServer.SendReloads | src/serving.rs:214-223 | one reload message per address, in order |
| Serving.DevServer.DropPeers | src/serving.rs:224-226 | exactly the given addresses leave the peers |
| Serving.DevServer.BuildPages | src/serving.rs:143-147 | every page is attempted, and a failure does not stop the loop |
| Serving.DevServer.Connect | src/serving.rs:237-249 | a browser with an address joins the peers; one without is rejected |
| Serving.DevServer.OnEvent | src/serving.rs:164-230 | the event changes the site and the actions as `HandleSpec` says; when it asks for a reload every connected browser is sent exactly one reload and the peers are emptied, and otherwise no reload is sent and the peers are kept |
| Serving.DevServer.InitialBuild | src/serving.rs:143-151 | every page is built once, then Sass and then the images, whose failures end the build |
| VirtualPet.UpdateInactive | site/root/js/pet.js:81-83 | a dead or paused pet is not changed by an update |
| VirtualPet.UpdateNeeds | site/root/js/pet.js:86-102 | an egg neither eats nor needs to go; otherwise food drops by the decay, clamped at 0 only for a pet that cannot die, and the potty timer drops and starts over once below 0; the name and behaviour never change |
| VirtualPet.UpdateStage | site/root/js/pet.js:105-127 | the pet ages, and when its age reaches its stage's length it moves up exactly one stage, pauses and restarts at age 0, or, as an elder, pauses and dies; otherwise only the age changes |
| VirtualPet.NextStageBounds | site/root/js/pet.js:105-127 | the stage stays the same or moves up by one, and a known stage never passes the elder stage |
| VirtualPet.UpdatesInactive | site/root/js/pet.js:81-83 | any number of updates leave a dead or paused pet unchanged |
| VirtualPet.UpdatesMonotone | site/root/js/pet.js:80-129 | over any run of updates the stage never goes down, a known stage stays known, the dead stay dead, and the name and `canDie` are kept |
| VirtualPet.UpdatesFeedsImmortal | site/root/js/pet.js:86-102 | a pet that cannot die never has its food go negative |
| VirtualPet.Hatching | site/root/js/pet.js:49-127 | a new pet is still an egg of age 1 after one update; after the second it is an unnamed pup of age 0 with full food, paused to wait for its name |
| VirtualPet.FeedFood | site/root/js/pet.js:159-164 | a pet over the food limit eats nothing; otherwise it eats the amount; nothing else changes |
| VirtualPet.NameEffect | site/root/js/pet.js:182-191 | a blank name changes nothing; any other name names and wakes the pet and changes nothing else |
| VirtualPet.NamingWakes | site/root/js/pet.js:182-191 | a paused pet that gets a name grows again on the next update |
| VirtualPet.Pet.constructor | site/root/js/pet.js:49-75 | a new pet is an unnamed egg that cannot die, with full food |
| VirtualPet.Pet.Update | site/root/js/pet.js:80-129 | the object's state after `update` is `Updated` of its state before |
| VirtualPet.Pet.Grow | site/root/js/pet.js:105-127 | the life stage part of `update` |
| VirtualPet.Pet.Feed | site/root/js/pet.js:159-164 | `feed` leaves the state as `Fed` says |
| VirtualPet.Pet.GoPotty | site/root/js/pet.js:169-176 | `goPotty` resets the potty timer |
| VirtualPet.SetName | site/root/js/pet.js:188-189 | the two assignments of the naming handler |
| VirtualPet.NameIt | site/root/js/pet.js:182-191 | the naming button leaves the pet as `Named` says |

## Behaviour of the source worth knowing

- **Empty collections.** An empty collection has `page_max` 0, so `build_list` writes no list page at all, not even `index.html` (`Pagination.EmptyListNoPages`, `Pagination.ListWrites`).
- **Failed loads.** A `load_all` that fails part way leaves the resources loaded so far in `loadedMetadata` (`Resource.ResourceBuilder.LoadAll`).
- **Renamed pages.** A rename creates the new path with building turned off, so a renamed page is indexed but not rebuilt, and its old HTML is deleted (`Serving.RenamePageNotBuilt`).
- **Request paths.** They are joined onto the build directory unchecked. `//x` and `/../x` name files outside it (`Serving.AbsoluteRequestLeavesBuildDirectory`, `Serving.ParentRequestLeavesBuildDirectory`).
- **Ids.** `get_id` of a file named `...md` panics (`Resource.GetIdPanics`). A file named `..md` takes the name of its directory as its id, because `with_extension("")` leaves a trailing `.` that `file_name` looks past (`Resource.GetIdDotStem`). Ids with a dot share the page of their stem (`Resource.DottedIdsCollide`).
- **Two builders.** The dev server uses the `SiteBuilder` of `src/builder.rs`, while `src/lib.rs` defines its own older builder. Both are modelled, as `Builder` and `Lib`.
- **Missing definitions.** Some names used by the core are defined in no source file:
  - `build_page_raw_with_extra_data` (`src/resource.rs:269`) is modelled as `build_page_raw_extra` of `src/builder.rs`;
  - `ImageMetadata::build_path` and `get_id` (`src/serving.rs:119`) are modelled as the resource builder's;
  - the loaded blog posts of `src/extras.rs:26` are a field of the extra's environment;
  - the crate's directory constants (`PAGES_PATH` and the others) are the `Layout` parameter;
  - the `sass_styles`, `blog_posts_per_page` and `images_per_page` settings are fields of the modelled configuration.

## Left out

- File system, templates, Markdown, YAML, Sass, minification, HTML tokenizing, URL parsing, time formatting and RSS validation: libraries outside the core. They are parameters, and the model states what the core does with their results.
- Directory creation (`create_dir_all`, `create_dir` and the `exists` checks before them): a successful creation does not change which files are written, and a failed one is not modelled, as for writes below.
- Write failures: `fs::write` and `create_dir_all` at src/builder.rs:215-223, src/lib.rs:247-256 and src/resource.rs:279, 289-292, 326, 351, 353, 404 and 461 are modelled as always succeeding. In the source such a failure ends the build through `?`; in the model a build never stops on a write, and goes on to the later pages.
- `println!`, `eprintln!` and `console.log`: logging has no effect on the model's state.
- `SiteBuilder::prepare`: the outcome of preparing is a parameter of the builds. In `src/builder.rs:60-98` it clears the build directory, registers the templates, copies the root files and creates the images directory. In `src/lib.rs:163-198` it removes the old static directory and HTML files, registers the templates and copies the static directory. None of these file operations is modelled.
- `build_sass`: it is an action of the server, with no contract of its own.
- The async runtime, the `Mutex` around the peers, hotwatch's thread and warp's routing combinators: concurrency and framework code. Events and requests are handled one at a time.
- The WebSocket upgrade: a connection is modelled as an opaque socket value that joins the peers.
- Non-GET requests: they fall through to the 404 route, which is modelled.
- `updateDom`, the timer, `Date.now` and the saved timestamps of `pet.js`: DOM and clock code. Updates are counted rather than timed.
- JavaScript numbers: modelled as unbounded integers, because the pet's counters stay small.
- The empty `canDie` and behaviour branches of `pet.js`: they do nothing in the source.
- `set_attribute` failures of the HTML rewriter: the source propagates them with `?` (src/builder.rs:151-170), but every attribute name it sets (`rel`, `href`, `target`) is a valid constant, so the call cannot fail and the attribute setter always succeeds.
- Extras: no part of the core applies an extra to a page, so `get_extra` and `index` are modelled on their own.
- `#content`: modelled as an element whose `id` attribute is `content`. A CSS selector engine is not part of this model.
- `Serving.IterationOrder`: the order of `HashMap` iteration is left open. Properties hold for any order in which each key appears exactly once.
