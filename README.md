# Factory hierarchy setup — a Dafny model

This project models the core of the factory-setup front end: how it rebuilds
a factory hierarchy (facility, area, mini factory, line, workstation) from
flat asset records and arbitrarily directed links, and what it proves about
that reconstruction. It also models the small deterministic editors around
it.

Four groups of code are modelled:

- **The two views.** The graph view and the tree view each build an id to
  node map. Each derives parent and child from the type-rank table
  (facility 1 … workstation 5). The graph view then records `parentId`
  (last write wins), picks a main root, assigns levels recursively, places
  every node on an integer grid, sizes the drawing and indexes connections
  for highlighting. The tree view instead takes as roots the nodes that no
  link targets, sorts them by label and keeps a set of expanded ids.
- **The asset normalisers.** These are the service's `processAssetData`
  with its nested `buildTree`, the hierarchy and API-view endpoints, the
  page's shape guards and normalisation, the create-node endpoint and the
  API client's URL, id-guard, mock and shape-dispatch logic.
- **The editors.** These are the parameter-row editor, the details panel's
  action table and its form load/save paths, the add-node dialog's record
  builder, and the dual view's selection state.
- **The legend's** type-to-label transform.

Each source file is one module. Two shared modules support them:

- `Js` models JavaScript truthiness, `||`, a JSON value type, property and
  path reads, object spread, ASCII case and number formatting.
- `Links` holds the node map, the rank table and the link-resolution rule.
  The graph and tree views repeat that code verbatim.

Code that updates state step by step is modelled as methods with loops,
proved against recursive specification functions:

- the graph view's link pass, grouping, placement and connection passes;
- the tree view's link pass;
- the service's and the hierarchy endpoint's two passes.

The components that hold state are classes whose methods update fields:
the graph, tree and dual views, the parameter editor, the add-node form and
the details panel.

Randomness, uuids and clocks become parameters. These are the placeholder
coordinates, the fresh row ids, the generated asset id and the ISO
timestamps. The outcome of each HTTP exchange is also a parameter: an
`Option` holding the upstream answer, or nothing when the call failed.

Some behaviours of the code are easy to misread; the model states what the
code does:

- **Asset type.** The type is `asset.type || "workstation"`. No other field
  is read, nothing is lower-cased, and a parentless record gets no
  `facility` default.
- **Levels of other roots.** Levels are assigned from the main root only.
  That root exists whenever any root does, so the `else` branch that levels
  every root runs only when there are no roots, and nodes under the other roots get no level
  (their `y` becomes NaN).
- **Levels on DAGs.** With several parents the recursion's last visit wins,
  so `level(child) = level(parent) + 1` need not hold for every parent. The
  model proves the fact the code supports (`LevelsShape`), and the full rule
  for forests (`ForestLevels`).
- **Tree parents.** The tree view does not read `parentId`: it takes its
  roots from link targets and its children from the rank rule. The
  service's tree follows `parent_id` and is not sorted.
- **Isolated nodes.** A node in no link has no entry in the connection
  index at all, and highlighting falls back to `[]`.
- **Failures.** A cycle in the graph view's level recursion (or in the
  service's `buildTree`) overflows the stack. The graph view's `catch` then
  leaves the state as it was, and the model returns `None`.

## Model

| member | source | states |
|---|---|---|
| Links.BuildNodeMap | app/masters/factory/graph-view.tsx:72-80 | The loop builds the Map's iteration order and contents. Each id appears once, and a key is present exactly when it is in the order. |
| Links.MapShape | app/masters/factory/graph-view.tsx:72-80 | The Map's keys are exactly the node ids, each key holds a node with that id, and the order has no duplicates. |
| Links.LastNodeWins | app/masters/factory/graph-view.tsx:73-79 | A node whose id does not occur later in the list is the one the Map keeps. |
| Links.UniqueIdsKeepOrder | app/masters/factory/tree-view.tsx:109-112 | With unique ids the Map holds every node, in list order. |
| Links.Rank | app/masters/factory/graph-view.tsx:92-98 | Exactly the five hierarchy types have a rank, from 1 to 5; any other type has none. |
| Links.RankBelow | app/masters/factory/graph-view.tsx:101-105 | Reference definition: `rank[s] < rank[t]`, false when either type is unranked, as a comparison with undefined is. |
| Links.Resolve | app/masters/factory/graph-view.tsx:84-114 | A link resolves exactly when both endpoint ids are in the Map. The lower-ranked endpoint becomes the parent; on a tie, or when a type is unranked, the source does. The pair is the link's two ids. |
| Links.ChildrenAreNodes | app/masters/factory/graph-view.tsx:101-111 | Every child recorded in a `children` list is a node of the Map. |
| Links.ChildOccurs | app/masters/factory/graph-view.tsx:102-113 | Every resolvable link puts its child in its parent's `children` list. |
| Links.ChildrenFrom | app/masters/factory/graph-view.tsx:83-116 | Reference definition of a node's `children` after the link pass: one entry per resolvable link that makes it the parent, in link order; GraphView.LinkPass is proved equal to it. |
| Links.UnresolvedLinkIgnored | app/masters/factory/graph-view.tsx:87-90 | Dropping a link with a missing endpoint leaves every `children` list unchanged. |
| GraphView.LinkPass | app/masters/factory/graph-view.tsx:83-116 | After the link loop, each node's `children` equals the specification of its children, and the `parentId` map is the last-write-wins parent map. |
| GraphView.ParentsFrom | app/masters/factory/graph-view.tsx:83-116 | Reference definition of `parentId` after the link pass, with a later link overwriting an earlier one; ParentFromSomeLink and LastParentWins state it. |
| GraphView.ApplyLink | app/masters/factory/graph-view.tsx:84-115 | One link appends the child to its parent's list and sets the child's parent; a link that does not resolve changes nothing. |
| GraphView.ParentFromSomeLink | app/masters/factory/graph-view.tsx:100-114 | A node has a `parentId` exactly when some resolvable link makes it a child, and the recorded parent is the parent of such a link. |
| GraphView.LastParentWins | app/masters/factory/graph-view.tsx:102-113 | The recorded parent is the parent given by the last resolvable link that names the child. |
| GraphView.EarlierParentKeepsChild | app/masters/factory/graph-view.tsx:102-113 | A later re-parenting link does not remove the child from the earlier parent's `children`. |
| GraphView.Roots | app/masters/factory/graph-view.tsx:119 | The roots are exactly the Map's nodes with no or an empty `parentId`, in Map order. |
| GraphView.FirstFacility | app/masters/factory/graph-view.tsx:122 | Finds the first facility-typed root, or reports that there is none. |
| GraphView.MainRoot | app/masters/factory/graph-view.tsx:122-123 | The main root is the first facility root if one exists, else the first root. There is none exactly when there are no roots. |
| GraphView.VisitShape | app/masters/factory/graph-view.tsx:126-129 | One `assignLevels` call writes a set of nodes closed under children. The node keeps its level; every other written node is one below a written parent whose list holds it; nothing else changes. |
| GraphView.VisitAllShape | app/masters/factory/graph-view.tsx:128 | The `children.forEach` recursion writes every remaining child and its subtree, with the same level discipline. |
| GraphView.LevelsShape | app/masters/factory/graph-view.tsx:126-137 | When the recursion ends, the main root has level 0 and the leveled nodes are closed under children. Every other leveled node is one level below some leveled node listing it. |
| GraphView.ForestLevels | app/masters/factory/graph-view.tsx:126-137 | In a forest, where each node is in at most one children list, a child's level is its parent's plus one. |
| GraphView.Levels | app/masters/factory/graph-view.tsx:125-137 | The levels from the main root, or none assigned when there is no root; LevelsShape and ForestLevels state them. |
| GraphView.Visit | app/masters/factory/graph-view.tsx:126-129 | `assignLevels` on one node: its level, then each child one deeper; None when the recursion would not end. |
| GraphView.VisitAll | app/masters/factory/graph-view.tsx:128 | The `forEach` over a node's children, threading the level map. |
| GraphView.VisitEnds | app/masters/factory/graph-view.tsx:126-129 | The recursion ends whenever every child ranks strictly below its parent. |
| GraphView.StrictRanksIncrease | app/masters/factory/graph-view.tsx:100-108 | When every link joins two different ranks, every children list is rank-increasing, so only equal-rank or unranked links can cause a cycle. |
| GraphView.GroupMembers | app/masters/factory/graph-view.tsx:140-146 | A level group holds exactly the nodes of that level, in Map order. |
| GraphView.GroupByLevel | app/masters/factory/graph-view.tsx:140-146 | The grouping loop creates a group exactly for each level that occurs, holding that level's nodes in order. |
| GraphView.Group | app/masters/factory/graph-view.tsx:140-146 | The ids of one level in Map order; GroupMembers states them. |
| GraphView.IndexOf | app/masters/factory/graph-view.tsx:157 | The first position of an element, or the length when it is absent. |
| GraphView.XInRow | app/masters/factory/graph-view.tsx:153-160 | The node at index j of a row of n gets `x = -n*250/2 + 125 + 250*j`. |
| GraphView.PlaceRow | app/masters/factory/graph-view.tsx:153-160 | Placing a row gives each of its nodes its formula x and `y = level*150`, and keeps the nodes placed before. |
| GraphView.RowX | app/masters/factory/graph-view.tsx:154-159 | The x of the j-th of n nodes in a row; NeighboursSpaced, RowSymmetric and RowSumsToZero state its shape. |
| GraphView.Layout | app/masters/factory/graph-view.tsx:139-161 | Every node's input x and y are overwritten: x from its row size and index, y from its level (NaN without one). |
| GraphView.XByIndex | app/masters/factory/graph-view.tsx:154-159 | The i-th node gets x = 125 - 125·n + 250·c, where n is its row size and c the number of nodes before it in the row. |
| GraphView.NeighboursSpaced | app/masters/factory/graph-view.tsx:159 | Neighbours in a row are exactly 250 apart. |
| GraphView.RowSymmetric | app/masters/factory/graph-view.tsx:154-159 | A row is centred on 0: the j-th node and the j-th from the end have opposite x. |
| GraphView.RowSumsToZero | app/masters/factory/graph-view.tsx:154-159 | The x values of a row sum to 0. |
| GraphView.NeighbourIff | app/masters/factory/graph-view.tsx:164-180 | b is listed under a exactly when some link joins a and b, in either direction, whether or not the endpoints are nodes. |
| GraphView.NeighboursSymmetric | app/masters/factory/graph-view.tsx:164-180 | b is listed under a exactly as often as a is listed under b. |
| GraphView.BuildConnections | app/masters/factory/graph-view.tsx:164-180 | The connection loop creates an entry exactly for each link endpoint, holding its neighbours in link order. |
| GraphView.Highlight | app/masters/factory/graph-view.tsx:337-338 | The highlight list is the node's id followed by its connections, or the id alone without an entry. |
| GraphView.HighlightNeighbours | app/masters/factory/graph-view.tsx:337-338 | After the id, the highlight lists exactly the nodes some link joins to the selected node. |
| GraphView.MinOf | app/masters/factory/graph-view.tsx:189-191 | `Math.min` of a non-empty list is an element no greater than any. |
| GraphView.MaxOf | app/masters/factory/graph-view.tsx:190-192 | `Math.max` of a non-empty list is an element no smaller than any. |
| GraphView.DimensionsBound | app/masters/factory/graph-view.tsx:188-197 | Width is at least 1000, covers every x gap plus 300, and is either 1000 or such a span. Height is at least 600 and covers every y gap plus 200. Height is NaN exactly when some node has no level. |
| GraphView.Dimensions | app/masters/factory/graph-view.tsx:186-198 | The drawing's width and height from the node positions; DimensionsBound states the bounds. |
| GraphView.SingleNodeSize | app/masters/factory/graph-view.tsx:188-197 | A single node gives a 1000 by 600 drawing. |
| GraphView.NodesOut | app/masters/factory/graph-view.tsx:183 | One recorded node per Map entry. |
| GraphView.RecordNodes | app/masters/factory/graph-view.tsx:183-187 | Copying the Map out gives, in Map order, each node with the fields the passes gave it. |
| GraphView.SnapshotsAreNodesOut | app/masters/factory/graph-view.tsx:72-187 | The copied nodes keep their id, label and type, and carry their last link parent, their children in link order, their level and their row position. |
| GraphView.RunEffect | app/masters/factory/graph-view.tsx:66-208 | The effect's computation yields its specified outcome: the connection index, the main root, and None when the level recursion does not end. |
| GraphView.NeighboursNonEmpty | app/masters/factory/graph-view.tsx:164-180 | An id has neighbours exactly when it is an endpoint of some link. |
| GraphView.Neighbours | app/masters/factory/graph-view.tsx:164-180 | The connection list of one id; NeighbourIff and NeighboursSymmetric state its contents. |
| GraphView.GraphViewState.constructor | app/masters/factory/graph-view.tsx:42-48 | Initial state: no nodes, no connections, no main root, a 1000 by 600 size, the first render. |
| GraphView.GraphViewState.ProcessData | app/masters/factory/graph-view.tsx:66-213 | Without data, or when the recursion throws, nothing changes. Otherwise the nodes, connections, main root, size (when there are nodes) and the one-time first-node callback are stored. |
| GraphView.GraphViewState.SelectNode | app/masters/factory/graph-view.tsx:328-339 | Selecting sets the highlight to the node and its connections and leaves the rest of the state alone. |
| TreeView.TreeLinkPass | app/masters/factory/tree-view.tsx:115-142 | After the loop, each node's `children` follows the three-way rank rule, skipping links with a missing endpoint. |
| TreeView.HasChildrenIff | app/masters/factory/tree-view.tsx:228 | A node shows an expander exactly when some resolvable link makes it the parent. |
| TreeView.TreeRoots | app/masters/factory/tree-view.tsx:145-150 | A node is a root exactly when no link, resolvable or not, targets it, whatever the rank rule decided. |
| TreeView.InsertPermutes | app/masters/factory/tree-view.tsx:153 | Inserting into the sorted list adds exactly that node. |
| TreeView.InsertSorted | app/masters/factory/tree-view.tsx:153 | Inserting into a label-sorted list keeps it sorted. |
| TreeView.SortByLabelCorrect | app/masters/factory/tree-view.tsx:153 | The root sort is ordered by label and is a permutation of its input. |
| TreeView.SortByLabel | app/masters/factory/tree-view.tsx:153 | The label sort, as an insertion sort under the abstract collation; SortByLabelCorrect proves it ordered and a permutation. |
| TreeView.Insert | app/masters/factory/tree-view.tsx:153 | One insertion step of the label sort: the node goes before the first label it precedes. |
| TreeView.RenderedChildren | app/masters/factory/tree-view.tsx:270-275 | The children an expanded node renders: its children sorted by label, or none; RenderedChildrenSorted states what they are. |
| TreeView.RenderedChildrenSorted | app/masters/factory/tree-view.tsx:270-275 | The rendered children are ordered by label and are exactly the node's children, counted with multiplicity; a node without children renders none. |
| TreeView.NodesOf | app/masters/factory/tree-view.tsx:272-274 | The nodes of a list of ids, in order. |
| TreeView.Toggled | app/masters/factory/tree-view.tsx:213-223 | Toggling adds an absent id, removes a present one, and leaves every other id alone. |
| TreeView.ToggleTwice | app/masters/factory/tree-view.tsx:213-223 | Toggling the same id twice restores the set. |
| TreeView.RootsDisagree | app/masters/factory/tree-view.tsx:144-150 | For a workstation-to-area link, the graph's rule gives the area as the only root. The tree's rule gives the workstation. |
| TreeView.IdsMembers | app/masters/factory/tree-view.tsx:159-161 | The ids added to the expanded set are exactly those of the roots. |
| TreeView.BuildTree | app/masters/factory/tree-view.tsx:108-153 | The effect's computation yields the children lists and the label-sorted roots. |
| TreeView.TreeViewState.constructor | app/masters/factory/tree-view.tsx:103-104 | Initial state: no roots, nothing expanded, no first node found yet. |
| TreeView.TreeViewState.ProcessData | app/masters/factory/tree-view.tsx:103-174 | Stores the children and the sorted roots; every root becomes expanded. The first sorted root is announced at most once, and only when there are roots and a callback. |
| TreeView.TreeViewState.ToggleNode | app/masters/factory/tree-view.tsx:213-223 | The expanded set is toggled at the id; nothing else changes. |
| FactoryService.NodeFor | services/factory-service.ts:86-102 | id = `asset_id` else `id`; label = name, else description, else "Asset id". Type defaults to workstation, code to "", status to active. The asset is kept. |
| FactoryService.AssetId | services/factory-service.ts:86 | Reference definition of `asset.asset_id \|\| asset.id`; NodeFor and SingleAsset state what depends on it. |
| FactoryService.NodesFrom | services/factory-service.ts:84-105 | At most one node per asset. |
| FactoryService.LinksFrom | services/factory-service.ts:108-119 | At most one link per asset. |
| FactoryService.PassesAppend | services/factory-service.ts:84-119 | Both passes treat assets one at a time in order: the output for a concatenation is the concatenation of the outputs. |
| FactoryService.SingleAsset | services/factory-service.ts:88-118 | An asset yields a node exactly when it has an id. It yields a parent-to-child link exactly when it has both an id and a `parent_id`; the parent is not checked. |
| FactoryService.LinksFollowNodes | services/factory-service.ts:108-119 | The links are the nodes' own parent references, in node order. |
| FactoryService.LinkTargetsAreNodes | services/factory-service.ts:112-117 | Every link targets a node whose asset names the link's source as parent. |
| FactoryService.RootsOf | services/factory-service.ts:138-154 | The roots are exactly the nodes whose asset has a falsy `parent_id`. |
| FactoryService.KidsOf | services/factory-service.ts:158 | The children are exactly the nodes whose asset names that id as parent. |
| FactoryService.BuildAllFails | services/factory-service.ts:160-173 | One child whose subtree recursion does not end makes the whole build fail. |
| FactoryService.CollectRoots | services/factory-service.ts:138-154 | The root loop collects exactly the roots, in node order. |
| FactoryService.ConvertGraphNodesToTreeNodes | services/factory-service.ts:128-182 | The conversion yields the specified forest, or None when `buildTree` would recurse without end. |
| FactoryService.ProcessAssetData | services/factory-service.ts:79-125 | The two passes give the specified nodes and links, and the tree is the forest of those nodes. |
| FactoryService.BuildNodeShape | services/factory-service.ts:157-174 | A built tree node copies its graph node. Its children are the copies of exactly the nodes naming it as parent, in node order. |
| FactoryService.BuildAllShape | services/factory-service.ts:160-173 | A built children list copies its nodes in order. |
| FactoryService.ToTree | services/factory-service.ts:160-168 | The tree copy of a graph node: code defaults to "" and status to active; BuildNodeShape states it. |
| FactoryService.BuildNode | services/factory-service.ts:157-174 | `buildTree` on one node, None when the recursion would not end; BuildNodeShape, NodeLinked and ChainDistinct state its result. |
| FactoryService.BuildAll | services/factory-service.ts:160-173 | The `forEach` over the children; BuildAllShape and BuildAllFails state its result. |
| FactoryService.Forest | services/factory-service.ts:128-182 | The tree of every root; ForestLinked and ForestEnds state it. |
| FactoryService.ForestLinked | services/factory-service.ts:138-179 | Each root of the forest names no parent, and every child names its tree parent. So a node whose parent chain never reaches a root does not appear. |
| FactoryService.NodeLinked | services/factory-service.ts:157-174 | Every child in a built tree names its tree parent's id as `parent_id`. |
| FactoryService.ChainDistinct | services/factory-service.ts:157-174 | With unique, non-empty ids, the ids along an ancestor chain are all different. |
| FactoryService.ForestEnds | services/factory-service.ts:128-182 | With unique, non-empty ids the conversion always ends. |
| HierarchyRoute.HNodeFor | app/api/factory-hierarchy/route.ts:44-51 | id = `asset_id`, kept as it is (a string, null, or absent). The label falls back name → description → "Asset " followed by the id as a template literal renders it ("null" for null, "undefined" when absent). Type defaults to workstation, status to active; code and asset are copied. |
| HierarchyRoute.NullIdKept | app/api/factory-hierarchy/route.ts:44-47 | An asset whose `asset_id` is null, with neither name nor description, is titled "Asset null" and its node keeps a null id. |
| HierarchyRoute.KnownIds | app/api/factory-hierarchy/route.ts:58 | The ids `nodeMap.has` finds are exactly the assets' `asset_id`s. |
| HierarchyRoute.HLinks | app/api/factory-hierarchy/route.ts:62-71 | There are at most as many links as assets. |
| HierarchyRoute.TransformAssetsToHierarchy | app/api/factory-hierarchy/route.ts:37-73 | One node per asset in order, and the links that the known-parent rule specifies. |
| HierarchyRoute.NodePass | app/api/factory-hierarchy/route.ts:43-59 | The first loop makes one node per asset and maps every known `asset_id`. |
| HierarchyRoute.LinkPass | app/api/factory-hierarchy/route.ts:62-70 | The second loop emits the specified links for the map's keys. |
| HierarchyRoute.LinkIff | app/api/factory-hierarchy/route.ts:63-69 | A link is emitted exactly when an asset has a truthy `parent_id` that is a known id. It runs from that parent to the asset's id. |
| HierarchyRoute.LinkOf | app/api/factory-hierarchy/route.ts:62-70 | The link one asset contributes, if its truthy parent is a known node; LinkIff states the whole list. |
| HierarchyRoute.LinksJoinNodes | app/api/factory-hierarchy/route.ts:64-68 | Every link's source is some node's `asset_id`, and its target is the `asset_id` of the asset naming that parent. |
| HierarchyRoute.MissingParentDropped | app/api/factory-hierarchy/route.ts:63 | An asset whose `parent_id` is no asset's `asset_id` produces no link, and no link of the answer starts at that parent. |
| ApiViewRoute.ApiAssetFor | app/api/factory-api/route.ts:40-50 | name = name, else "Asset " and the id as rendered ("null", "undefined" or the text). Type defaults to workstation and status to active. description = description, else the raw type and id as rendered. id, parent_id and code pass through, null kept apart from absent, and so does the record. |
| ApiViewRoute.TransformAssetsForApiView | app/api/factory-api/route.ts:37-52 | A pure map: the same length and order, one record per asset. |
| ApiViewRoute.UntypedDescription | app/api/factory-api/route.ts:43-46 | Without description or a string type, the description reads "null id" for a null type and "undefined id" for a missing one, while the type reads workstation. |
| ApiViewRoute.RecordsKept | app/api/factory-api/route.ts:49 | The original records can be read back, in order, from the output. |
| FactoryPage.Validate | app/factory/page.tsx:29-55 | The guards run in their fixed order and the first failure gives the message. Data passes exactly when it is truthy and has arrays `nodes` and `links`. |
| FactoryPage.NormaliseNode | app/factory/page.tsx:59-67 | Normalising throws exactly for a null node. |
| FactoryPage.NormalisedFields | app/factory/page.tsx:59-67 | id = id or "node-i"; label = label, else name, else "Node i"; type defaults to workstation. x and y are kept when truthy, else placed; other fields are copied. |
| FactoryPage.EndpointValue | app/factory/page.tsx:71-72 | An object endpoint becomes its `.id`; an array, being an object without `id`, becomes undefined; null throws; any other value stays. |
| FactoryPage.NormaliseLink | app/factory/page.tsx:68-74 | The endpoints are normalised and the type defaults to "parent-child"; a null link or endpoint throws. |
| FactoryPage.NormaliseNodes | app/factory/page.tsx:59-67 | The nodes are normalised index by index; the map throws exactly when some node is null. |
| FactoryPage.NormaliseLinks | app/factory/page.tsx:68-74 | The links are normalised index by index; the map throws exactly when some link does. |
| FactoryPage.FetchFactoryData | app/factory/page.tsx:23-110 | A thrown fetch or a failed guard gives its message and the mock data. The data is loaded exactly when the guards pass, no node entry is null and every link normalises; the loaded nodes and links are then the normalised lists. Any other outcome is a TypeError with the mock data. |
| FactoryPage.NullNodeFails | app/factory/page.tsx:58-67 | A null entry anywhere in `nodes` makes the normalisation throw a TypeError, and the page falls back to the mock data. |
| FactoryPage.CountsKept | app/factory/page.tsx:58-83 | The loaded node and link counts equal the input counts. |
| FactoryPage.MockIsChain | app/factory/page.tsx:92-106 | The fallback has 5 nodes and 4 links; link i joins node i to node i+1, which records node i as its `parent_id`. |
| FactoryPage.MockData | app/factory/page.tsx:92-106 | Reference definition of the page's fallback data; MockIsChain, MockParents and MockPassesGuards state it. |
| FactoryPage.MockParents | app/factory/page.tsx:94-98 | Only the first fallback node has no parent. |
| FactoryPage.MockPassesGuards | app/factory/page.tsx:92-106 | The fallback passes the page's own shape guards. |
| NodeRoute.MissingField | app/api/factory-node/route.ts:14-22 | The first missing of `asset_id`, `name`, `type`, in that order; none exactly when all three are truthy. |
| NodeRoute.TransformedNode | app/api/factory-node/route.ts:45-54 | id = `asset_id` or `id`; label = name or "Asset id". Status defaults to active, description to "", parameters to {}. The upstream record is kept, with no `created` flag. |
| NodeRoute.FallbackNode | app/api/factory-node/route.ts:62-73 | The echo has id = `asset_id` and label = name, with the same defaults. It keeps the request and is marked `created` at the given time. |
| NodeRoute.Post | app/api/factory-node/route.ts:7-79 | An unparsable body gives 500; a missing field gives 400 with its message. Otherwise 200 with the transformed upstream record, or the echo when the upstream call failed. |
| NodeRoute.FirstMissingWins | app/api/factory-node/route.ts:14-16 | A request without `asset_id` is refused for `asset_id`, whatever else it lacks. |
| NodeRoute.CreatedOnlyInFallback | app/api/factory-node/route.ts:53-71 | Only the fallback carries `created`, and each answer keeps the record it was made from. |
| ApiService.ApiUrl | services/api-service.ts:4-5 | The public variable, else the private one, else "/api". |
| ApiService.FullUrl | services/api-service.ts:36 | A URL starting with "http" or "/api" is used as is; anything else is put under `API_URL`. |
| ApiService.FullUrlEndsWithUrl | services/api-service.ts:36 | Every request address ends with the requested path. |
| ApiService.InvalidIds | services/api-service.ts:101 | The refused ids are exactly a missing id, "", "0", "undefined" and "null". |
| ApiService.InvalidId | services/api-service.ts:101 | Reference definition of the refused ids, a falsy id or "0", "undefined" or "null"; InvalidIds states the set. |
| ApiService.Placeholder | services/api-service.ts:103-107 | The placeholder's description is "Node " and the id as rendered ("Node null" for null, "Node undefined" when absent). Code = the upper-cased id, or "" when it is not a string; status "unknown". |
| ApiService.MockLinksMatchParents | services/api-service.ts:63-89 | Every mock link joins two mock nodes, and its target records its source as `parent_id`. |
| ApiService.MockHierarchy | services/api-service.ts:63-89 | The fixed mock hierarchy as JSON; MockLinksMatchParents states its consistency. |
| ApiService.FindMock | services/api-service.ts:120 | Finds the first mock node with the id, or reports that there is none. |
| ApiService.MockDetails | services/api-service.ts:119-141 | A known id gets its mock label and type, code = the upper-cased id and status active. An unknown id gets the generic record. |
| ApiService.FetchNodeDetails | services/api-service.ts:100-143 | A refused id gives the placeholder without fetching; an upstream answer is returned as is. A failed fetch gives the mock record. |
| ApiService.UpdateNodeDetails | services/api-service.ts:197-226 | Fails with "Invalid node ID" exactly for a refused id. Otherwise returns the upstream answer, or, when the call failed, an object holding exactly the data's keys plus `id`, `updated` (true) and `updatedAt`, the data's other keys unchanged. |
| ApiService.ArrayLinks | services/api-service.ts:163-177 | Building the links throws exactly when some node is null. |
| ApiService.BuildArrayLinks | services/api-service.ts:164-175 | The loop builds the specified links. |
| ApiService.ArrayLinksShape | services/api-service.ts:167-175 | A node with a truthy `parent_id` gives a parent-child link from that parent to its `id`, placed at the number of such nodes before it; there are exactly as many links as such nodes, so every link is one of these, in node order. |
| ApiService.FetchFactoryHierarchy | services/api-service.ts:149-189 | The shapes, tried in order: `{nodes, links}` is returned as is, and `{treeData, graphData}` gives `graphData`. An array gets links built from it, and an array holding a null node gives the mock hierarchy. Anything else is returned unchanged; a failure or a null answer gives the mock hierarchy. |
| MapDataAttributes.SpliceStart | app/masters/factory/map-data-attributes.tsx:82 | `splice`'s start: a negative start counts from the end, and the result is clamped to the list. |
| MapDataAttributes.InsertAt | app/masters/factory/map-data-attributes.tsx:82 | `splice(k, 0, row)` puts the row at k and keeps the others in order. |
| MapDataAttributes.RemoveAt | app/masters/factory/map-data-attributes.tsx:92 | `splice(k, 1)` removes the row at k and keeps the others in order. |
| MapDataAttributes.InsertedShape | app/masters/factory/map-data-attributes.tsx:73-84 | Inserting puts one fresh empty row right after the position, or at the end past it. Length grows by one, the other rows stay in order, and an empty list gets the single row. |
| MapDataAttributes.Inserted | app/masters/factory/map-data-attributes.tsx:73-84 | Reference definition of `handleInsert`: `splice(position + 1, 0, row)` of a fresh empty row; InsertedShape states it. |
| MapDataAttributes.DeletedShape | app/masters/factory/map-data-attributes.tsx:86-94 | A list of at most one row is left alone, so deleting never empties it. Otherwise the row at the position goes and the rest stay in order; a position past the end changes nothing. |
| MapDataAttributes.Deleted | app/masters/factory/map-data-attributes.tsx:86-94 | Reference definition of `handleDelete`: the last row is kept, else `splice(position, 1)`; DeletedShape states it. |
| MapDataAttributes.UpdateRow | app/masters/factory/map-data-attributes.tsx:101-113 | A "limits.K" name edits only the limits; any other name leaves them alone. |
| MapDataAttributes.LimitKey | app/masters/factory/map-data-attributes.tsx:102 | Reference definition of `name.split(".")[1]` for a `limits.` name; CppEdit shows it for CPP. |
| MapDataAttributes.LimitValueOf | app/masters/factory/map-data-attributes.tsx:107 | Reference definition of the stored limit: a number for an LCL/HCL input that parses to a non-zero number, else the text. |
| MapDataAttributes.UpdateRows | app/masters/factory/map-data-attributes.tsx:99-117 | Only rows with the id are edited; the length and order are kept. |
| MapDataAttributes.TopLevelEdit | app/masters/factory/map-data-attributes.tsx:111-113 | A top-level edit sets exactly the named field and leaves the others. |
| MapDataAttributes.CppEdit | app/masters/factory/map-data-attributes.tsx:102-110 | Editing "limits.CPP" stores the text under CPP and keeps every other limit. |
| MapDataAttributes.ParameterEditor.constructor | app/masters/factory/map-data-attributes.tsx:33 | The editor starts with no rows. |
| MapDataAttributes.ParameterEditor.Mount | app/masters/factory/map-data-attributes.tsx:37-71 | After mounting, the rows are the nine sample rows. |
| MapDataAttributes.SampleRows | app/masters/factory/map-data-attributes.tsx:46-60 | Reference definition of the nine sample rows, the last with its `Low-LCL` limit; Mount loads them. |
| MapDataAttributes.ParameterEditor.HandleInsert | app/masters/factory/map-data-attributes.tsx:73-84 | The rows become the inserted list. |
| MapDataAttributes.ParameterEditor.HandleDelete | app/masters/factory/map-data-attributes.tsx:86-94 | The rows become the deleted list, and a non-empty list stays non-empty. |
| MapDataAttributes.ParameterEditor.HandleUpdate | app/masters/factory/map-data-attributes.tsx:96-118 | The rows become the updated list. |
| NodeLegend.Split | app/masters/factory/node-legend.tsx:43 | `split` never returns an empty list. |
| NodeLegend.Capitalize | app/masters/factory/node-legend.tsx:44 | Capitalising keeps a word's length. |
| NodeLegend.PipelineSpelled | app/masters/factory/node-legend.tsx:42-45 | The split/capitalise/join pipeline spells its input character by character: "_" becomes a space and each word's first letter is upper-cased. |
| NodeLegend.LabelSpelled | app/masters/factory/node-legend.tsx:42-45 | A label is its type with "_" turned to spaces and each word's first letter upper-cased. |
| NodeLegend.Label | app/masters/factory/node-legend.tsx:42-45 | The legend label of a type; LabelSpelled, LabelLength and LabelRoundTrip state it. |
| NodeLegend.Join | app/masters/factory/node-legend.tsx:45 | `join(" ")`; PipelineSpelled states the joined pipeline. |
| NodeLegend.LabelLength | app/masters/factory/node-legend.tsx:42-45 | A label has the length of its type. |
| NodeLegend.Unlabel | app/masters/factory/node-legend.tsx:42-45 | The inverse transform lower-cases a label and turns spaces into "_". |
| NodeLegend.LabelRoundTrip | app/masters/factory/node-legend.tsx:42-45 | For a type without capitals or spaces, un-labelling its label gives the type back. |
| NodeLegend.Legend | app/masters/factory/node-legend.tsx:40-45 | One entry per icon-table key, in order, each with its label. |
| NodeLegend.LegendInRankOrder | app/masters/factory/node-legend.tsx:29-35 | The legend lists facility, area, mini_factory, line, workstation: its i-th entry has rank i+1. |
| NodeLegend.MiniFactoryLabel | app/masters/factory/node-legend.tsx:42-45 | "mini_factory" is labelled "Mini Factory". |
| NodeLegend.WordLabelIs | app/masters/factory/node-legend.tsx:42-45 | A type of one word, without "_", is labelled with its first letter upper-cased and the rest unchanged. |
| NodeLegend.TwoWordLabel | app/masters/factory/node-legend.tsx:42-45 | Two words joined by "_" are capitalised and joined by a space. |
| AddNodeModal.TitleFromLegend | app/masters/factory/add-node-modal.tsx:90-103 | Each of area, line, workstation and mini_factory is titled "Add " followed by its legend label. |
| AddNodeModal.GenericTitle | app/masters/factory/add-node-modal.tsx:100-101 | Any other type, facility included, is titled "Add Node". |
| AddNodeModal.NodeTypeTitle | app/masters/factory/add-node-modal.tsx:90-103 | The dialog title of a type; TitleFromLegend and GenericTitle state it. |
| AddNodeModal.DefaultShiftsTileTheDay | app/masters/factory/add-node-modal.tsx:41-49 | The three default shifts run back to back from 00:00:00 to 23:59:59, each starting one second after the previous ends. |
| AddNodeModal.InputValue | app/masters/factory/add-node-modal.tsx:82 | A checkbox stores its `checked` flag; any other input stores its text. |
| AddNodeModal.AddNodeForm.constructor | app/masters/factory/add-node-modal.tsx:26-50 | The form starts with the defaults. |
| AddNodeModal.AddNodeForm.Reset | app/masters/factory/add-node-modal.tsx:53-76 | Reset restores the fixed defaults. |
| AddNodeModal.AddNodeForm.InputChange | app/masters/factory/add-node-modal.tsx:78-84 | Only the named field changes. |
| AddNodeModal.AddNodeForm.StatusChange | app/masters/factory/add-node-modal.tsx:86-88 | Only the status changes. |
| AddNodeModal.BuildNodeData | app/masters/factory/add-node-modal.tsx:113-164 | The record is the base record; a workstation's `parameters` are replaced by its PLC details and shifts. |
| AddNodeModal.RecordPlacement | app/masters/factory/add-node-modal.tsx:114-131 | The record has the requested type, `parent_id` and generated id. Its validity ends at 9999-12-31 and its parameters start empty. |
| AddNodeModal.RecordFields | app/masters/factory/add-node-modal.tsx:116-119 | The record carries the form's name, description, code and status. |
| AddNodeModal.WorkstationDetails | app/masters/factory/add-node-modal.tsx:137-145 | The details carry the four PLC fields, and the streamed flag as "yes" or "no" by its truthiness. |
| AddNodeModal.WorkstationShifts | app/masters/factory/add-node-modal.tsx:146-162 | Exactly three shifts, the n-th from the form's shift-n fields. |
| AddNodeModal.DefaultWorkstation | app/masters/factory/add-node-modal.tsx:39-143 | With the default form, a new workstation streams all PLC data ("yes"). |
| NodeDetailsPanel.ActionsFollowRanks | app/masters/factory/node-details-panel.tsx:428-504 | A ranked type can add one level down (except workstation) and its own level (except facility); facility and workstation get exactly one button and area, mini_factory and line exactly two; any other type, or a differently cased one, gets no buttons. |
| NodeDetailsPanel.ActionTitlesMatchDialog | app/masters/factory/node-details-panel.tsx:428-504 | Each button's title is the dialog's title for its type, so no facility can be added from the panel. |
| NodeDetailsPanel.ActionButtons | app/masters/factory/node-details-panel.tsx:428-504 | The action buttons a type shows; ActionsFollowRanks and ActionTitlesMatchDialog state them. |
| NodeDetailsPanel.Assign | app/masters/factory/node-details-panel.tsx:259-263 | `x = x \|\| {}` down a path and then an assignment. It succeeds only on an object, and yields an object. |
| NodeDetailsPanel.AssignThenGet | app/masters/factory/node-details-panel.tsx:259-263 | After the assignment the path reads the value, and every container on the way is an object. |
| NodeDetailsPanel.AssignKeepsOthers | app/masters/factory/node-details-panel.tsx:259-263 | Paths that part from the assigned one read as before. |
| NodeDetailsPanel.AssignSucceeds | app/masters/factory/node-details-panel.tsx:259-263 | The assignment succeeds when every container on the way is an object or falsy. |
| NodeDetailsPanel.WriteAllShape | app/masters/factory/node-details-panel.tsx:292-302 | After several assignments into one container, each written property reads its value. The containers are objects, and paths apart from the written ones read as before. |
| NodeDetailsPanel.WriteAllSucceeds | app/masters/factory/node-details-panel.tsx:292-302 | The assignments succeed when every container on the way is an object or falsy. |
| NodeDetailsPanel.FacilityPlace | app/masters/factory/node-details-panel.tsx:119-135 | Where a facility's city/country are read: the first truthy of `assetData.parameters.specs.demographics`, `parameters.specs.demographics`, `assetData.location` and `location`, in that order, or none when all four are falsy. |
| NodeDetailsPanel.LoadForm | app/masters/factory/node-details-panel.tsx:79-159 | Nothing is loaded while no node is shown. |
| NodeDetailsPanel.LoadFormCommon | app/masters/factory/node-details-panel.tsx:86-100 | Description = node's, else the asset's, else "". Code defaults to "" and status to active, whatever the type. |
| NodeDetailsPanel.LoadBase | app/masters/factory/node-details-panel.tsx:86-100 | The common fields of the load; LoadFormCommon states them. |
| NodeDetailsPanel.LoadFacility | app/masters/factory/node-details-panel.tsx:111-136 | The facility's city and country from the first place found; FacilityRoundTrip states it. |
| NodeDetailsPanel.LoadDetails | app/masters/factory/node-details-panel.tsx:138-151 | The workstation's PLC fields and streamed flag; WorkstationRoundTrip states them. |
| NodeDetailsPanel.Save | app/masters/factory/node-details-panel.tsx:234-328 | A save is refused exactly when the node or its id is missing; a successful save posts an object. |
| NodeDetailsPanel.SaveBaseReads | app/masters/factory/node-details-panel.tsx:248-253 | The edited record reads as the node on every other top-level key. |
| NodeDetailsPanel.SaveBaseTop | app/masters/factory/node-details-panel.tsx:248-253 | The edited record carries the form's description, code and status. |
| NodeDetailsPanel.SaveBase | app/masters/factory/node-details-panel.tsx:248-253 | The spread copy with the three common fields written; SaveBaseReads and SaveBaseTop state it. |
| NodeDetailsPanel.FacilityTarget | app/masters/factory/node-details-panel.tsx:256-287 | The path a facility save writes to; SavedPlaceFound states it. |
| NodeDetailsPanel.DetailsTarget | app/masters/factory/node-details-panel.tsx:290-327 | The container a workstation save writes to; SavedDetailsFound states it. |
| NodeDetailsPanel.SavedKeepsCommon | app/masters/factory/node-details-panel.tsx:248-328 | Every successful save keeps the form's three common fields and the asset's description. |
| NodeDetailsPanel.CommonRoundTrip | app/masters/factory/node-details-panel.tsx:86-100 | After a save, a load reads back the code, status and description. An empty description falls back to the asset's. |
| NodeDetailsPanel.SavedPlaceFound | app/masters/factory/node-details-panel.tsx:256-287 | After a facility save, the first place the load searches is the one written, and it holds the fields. |
| NodeDetailsPanel.FacilityRoundTrip | app/masters/factory/node-details-panel.tsx:256-287 | City and country are written where they were read from, or to a new `parameters.specs.demographics`. The next load finds them there. |
| NodeDetailsPanel.SavedDetailsFound | app/masters/factory/node-details-panel.tsx:290-328 | After a workstation save, the load's details lookup finds the container the PLC fields were written to. |
| NodeDetailsPanel.WorkstationRoundTrip | app/masters/factory/node-details-panel.tsx:142-150 | The PLC fields are written to the node's details, else the asset's, else new ones. The next load reads them back, and the streamed flag survives as "yes"/"no". |
| NodeDetailsPanel.ClearedDescriptionReturns | app/masters/factory/node-details-panel.tsx:88-94 | A cleared description does not stick when the asset has one: the next load shows the asset's again. |
| NodeDetailsPanel.FacilitySaveSucceeds | app/masters/factory/node-details-panel.tsx:256-287 | A facility save succeeds when each container on the place it writes is an object or missing. |
| NodeDetailsPanel.FacilityCreatesDemographics | app/masters/factory/node-details-panel.tsx:280-286 | A facility with no city or country anywhere gets a new `parameters.specs.demographics` holding them. |
| NodeDetailsPanel.NewWorkstationLoads | app/masters/factory/node-details-panel.tsx:138-151 | A workstation created by the add-node dialog opens in the panel with the PLC details and streamed flag it was given. |
| NodeDetailsPanel.NodeDetailsPanelState.constructor | app/masters/factory/node-details-panel.tsx:35-64 | All sections start open, the dialog closed on area, the form blank. |
| NodeDetailsPanel.NodeDetailsPanelState.ToggleSection | app/masters/factory/node-details-panel.tsx:67-72 | Flips only the named section. |
| NodeDetailsPanel.NodeDetailsPanelState.ClickAction | app/masters/factory/node-details-panel.tsx:434-437 | Opens the dialog for the button's type. |
| NodeDetailsPanel.NodeDetailsPanelState.NodeChanged | app/masters/factory/node-details-panel.tsx:79-159 | The form becomes the load of the node; the sections and the dialog are unchanged. |
| DualView.RemoveCircularReferences | app/masters/factory/dual-view.tsx:66-77 | A missing node gives null. Otherwise a copy without `parent` and `children`, with every other field equal. |
| DualView.CleanIdempotent | app/masters/factory/dual-view.tsx:66-77 | Cleaning twice is cleaning once. |
| DualView.WidthsAddUp | app/masters/factory/dual-view.tsx:191-192 | Side by side, the panels are 70/30 or 50/50 and always share the whole width. |
| DualView.LeftPanelWidth | app/masters/factory/dual-view.tsx:191-298 | The tree/graph panel's width in percent, the whole width on a small screen; WidthsAddUp states it. |
| DualView.RightPanelWidth | app/masters/factory/dual-view.tsx:192 | The details panel's width in percent; WidthsAddUp states it. |
| DualView.SidePanelRule | app/masters/factory/dual-view.tsx:332 | The details panel never shows on a small screen. On a wide one it always shows with a selection, and without one exactly when not expanded. |
| DualView.SidePanelShown | app/masters/factory/dual-view.tsx:332 | Whether the details panel shows; SidePanelRule states when. |
| DualView.DualViewState.constructor | app/masters/factory/dual-view.tsx:24-37 | Nothing selected, not expanded, not mobile. |
| DualView.DualViewState.SelectNode | app/masters/factory/dual-view.tsx:79-100 | Sets the id, the lower-cased type and the cleaned node together. A missing type throws before anything is set. |
| DualView.DualViewState.CloseDetails | app/masters/factory/dual-view.tsx:111-115 | Clears the id, type and node. |
| DualView.DualViewState.RefreshData | app/masters/factory/dual-view.tsx:50-63 | Clears the selection as closing does. |
| DualView.DualViewState.ToggleExpanded | app/masters/factory/dual-view.tsx:107-109 | Flips the expanded flag only. |
| DualView.DualViewState.Resize | app/masters/factory/dual-view.tsx:155-164 | A width below 768 sets mobile, forces expanded and hides the side panel; a wide screen keeps the layout. |

## Left out

- Rendering is not modelled: JSX/SVG, the Bezier paths, zoom, drag offsets, browser detection and reflow fixes, timers, resize listeners and toasts.
- HTTP is not modelled: `fetch`, status codes from upstream, timeouts, environment lookup and JSON parsing. Each exchange is a parameter holding the upstream answer, or nothing when the call failed.
- Randomness, uuids and clocks (`Math.random` positions, `uuidv4`, `generateUUID`, `new Date()`) are parameters; their values are not modelled.
- Floating point is not modelled. `parseFloat` for LCL/HCL is an abstract predicate saying whether it yields a non-zero number. The NaN `y` of unlevelled nodes is `None`.
- TreeView.SortByLabel: `localeCompare` is an abstract total preorder on labels, and the sort is specified as a stable insertion sort. The engine's exact collation, and the instability it allows, are not modelled.
- Js.ToUpper and Js.ToLower change ASCII letters only. Unicode case mapping is not modelled.
- Every asset field is a `Field`: undefined, null or a string. Numbers or objects in those fields are not modelled; the endpoints only test them for truthiness, render them in template literals or pass them through.
- Aliasing of shallow copies is not modelled. Tree and graph nodes are values, and `children` lists hold ids rather than shared node objects.
- GraphView: input nodes are assumed to carry no `parentId` or `level` of their own, because no producer sets them.
- TreeView.TreeViewState.ProcessData: the first sorted root is recorded as announced; the callback itself (`handleFirstNodeFound`) belongs to the parent and is not modelled.
- GraphView.LevelsShape states only that each leveled child sits one level below SOME parent. On a DAG the last visit wins, so "one below every parent" is false. The full rule is proved for forests only (ForestLevels).
- A cycle in the level recursion or in `buildTree` is `None`: the model does not count the stack depth at which the engine throws.
- The details panel's delete, edit-mode and saving flags, and the map-data file picker and tabs, are display state with no logic. They are not modelled.
- A link whose `source` or `target` is null or undefined throws inside the views' effects, and the error is swallowed. `Links.Endpoint` cannot express such an endpoint, because no producer in the model emits one.
- AddNodeModal.BuildNodeData takes one `now` for the three `new Date()` reads. The milliseconds that may pass between them are not modelled.
- MapDataAttributes.UpdateRow: an input named exactly `limits` would replace the whole `limits` object with its text. The model files it among the row's other fields, because a row's limits are a map. The screen only emits `parameter`, `model_no` and `limits.*` names.
- Js.Spread gives an empty object for an array or a string, where JavaScript copies their index keys. So a string or array node entry in FactoryPage.NormaliseNode, a string or array link entry in FactoryPage.NormaliseLink, and an array `data` in ApiService.UpdateNodeDetails lose their index keys in the model.
- NodeDetailsPanel.Assign refuses an array as a container, so the save is refused there, where JavaScript would set a named property on the array and go on.
- FactoryPage.NormaliseNode: a JSON array never holds undefined, so of the node entries only a null one throws. A number entry is spread like an empty object, as in JavaScript.
- FactoryPage.FetchFactoryData: the text of a TypeError comes from the engine and is not modelled.
- The row-editor sample data's `Low-LCL` value 0.140000001 is a float. It is kept as its source text, under the same parseFloat abstraction as the other limits.
- `app/masters/factory/page.tsx`, `node-details.tsx`, the UI components, the layout and the config hold no modellable logic and are not part of this model.
