# One order, one site: a Dafny model of the EDP order compiler

A configurator order is sized, resolved into container, server and PCS counts, and expanded into a device
topology (the DTM). A bill of materials, a cable schedule, prices and job records follow. Each artifact is built by
different code, and nothing in the types makes them describe the same site. This project models those parts over one
set of datatypes and proves that they do, for every order and every well-formed catalog.

The manifest is read twice: the one pinned when the job is created gives the promised artifacts, the DTM and the schedule,
the BOM generator fetches it again. Theorems across both take two manifests, `pinned` and `fetched`.

Run `dafny verify dfyconfig.toml`.

## Layout

- **Shared**: `Lists`, `Text` (printing and reading numbers, tags and separated lists), `Numbering`, `Sorting`, `Catalog`.
- **Sizing**: `ComputeNodes`, `ComputeFeeds`, `GridRules`, `Sizing`.
- **Topology**: `Dtm` (the data and its validators), `SitePlan` and `DtmSpec` (the site an order should get, as a value),
  `DtmGenerator` (the generator as it runs: a class over shared dicts, proved to return that value), `DtmSoundness`,
  `SiteNames`, `SiteShape`, `DeviceSlugs`, `AsPublished` (the site against the topologies it was built from).
- **Cable schedule**: `SiteIndex`, `Cabling`, `PowerCables`, `CommsCables`, `Hoses`, `Schedule` (the sheet as a whole), then
  `ContainerGear`, `DualPath`, `FeedMap`, `ManagementNetwork`, `Coherence`, `SiteNetwork` for what the sheets add up to, and
  `RunEnds`, `PowerPaths`, `SitePower`, `HoseLoops` for what reaches each device.
- **BOM**: `RefDes`, `ContainerLabels`, `BomModel`, `BomGenerator`, `FieldMaterial`, then `BomCoverage`, `BomSite`,
  `BomHardware`, `BomAgreement` (BOM against DTM) and `BomPricing`, `BomBudget`, `BomTotals` (money),
  `BomParts` and `BomFabrication` (what each line of hardware, shells and plates asks for).
- **Services**: `Offers`, `Enrichment` (threads as a step system), `EnrichmentService` (its loops), `Artifacts`, `Jobs`, and
  `PlatePromises` (what a job promises against what its BOM buys).
- **Drawings and installation**: `DrawingArea`, `InstallSequence`.
- **The whole order**: `Pipeline` (all of it in sequence, and when it succeeds), `SmallSite` (one site written out, and what
  goes wrong with it), `OrderCompiler` (the resolver's counts put into the agreement theorems).

Code that works step by step is a method or a class here, proved against a function of its inputs; the theorems are about
those functions. MW, kW, hours, millimetres and USD are exact reals. A Python exception is an error value.

## What a catalog must satisfy

topology.yaml, bom.yaml, spec and template data are arbitrary inputs under stated predicates: `TopologiesTagged` (tags
unique within a topology), `ProfileShaped` (one transformer and one LV switchboard per grid topology, none in compute),
`PanelsTagged`, `PowerLayout` (a full container's servers and PDUs), `CatalogAgrees` (the fetched bom.yaml lists each
equipment id with the tags of the pinned topology's devices that have it, quantity = number of tags, for the variants the order
uses), `TidyCatalog` (tags free of separators, numbers unpadded), `PlatesApart` (no shell or spec carries a plate's part number).
Distributor clients are functions from an MPN to an offer of their own for that MPN, or a raise.

## Where a tempting claim is false

Each has a lemma with the exact condition, and most have one that names a breaking input:

- Generation rejects a template name at the id rule's own length, since its number no longer fits: `SiteIdsValidIff`,
  `LongTemplateRefused`.
- A grid container can exceed the 800 kW design load (860 kW at 37 full B200 containers): `WithinDesignIff`.
- A trailing feed can be empty (139 containers): `FeedEmptyIff`.
- LV buses fail when a profile has feeders but no primary grid variant and the order needs two or more: `LvBusesOkIff`,
  `FeederAloneFails`.
- DTM and BOM generators accept a profile without a grid container, and the schedule divides by zero: `SitePowerIff`.
- A manifest republished between create and execute gives a BOM for another site than the DTM's: `QuantitiesAgreeIff`,
  `RepublishedBuysAnother`.
- A management switch that is itself polled gets two cables out, one to itself: `TreeIntoGateway`,
  `PolledSwitchIsNoTree`.
- A label loses padding when a run's numbers change width (A-9, A-010): `LabelReadsBackIff`.
- Pricing crashes below the first quantity break: `PricingWorksIff`, `BelowFirstIff`.
- The budget range turns inside out on a negative offer, which nothing rejects: `LineRangeIff`.
- Rounding the PCS need to 6 places can order a fleet a hair too small: `FleetCarriesInFullIff`.
- A same-level dependency can come after the task that needs it: `DependencyHonouredIff`.
- A plate the profile promises but no bom.yaml of the order lists fails the job after its 202: `JobFailsIff`,
  `PlateNeverBought`.

Where code and comment differ, the code is modelled: a comment in `src/dtm/dtm_sizing.py` ties the flex obligation to the
flexible path, but grid-revenue orders with flexible service carry one too (`ObligationIffFlexible` states the service).
`src/jobs/job_store.py` says background tasks share the event loop; a synchronous `execute` runs in a worker thread, so
`Jobs` interleaves its read and its write with everything else. `src/jobs/jobs_module.py` says the pipeline reuses the pinned
manifest with no second fetch; `src/bom_generator/bom_generator_service.py` fetches it again for the BOM.

## Model

| member | source | states |
|---|---|---|
| Numbering.IdsDistinct | src/dtm/dtm_generator_internals.py:114-118 | ids numbered from one shared counter are pairwise distinct, whatever names are asked for and in whatever order |
| Text.SlugInjective | src/dtm/dtm_generator_internals.py:118 | two printed ids are equal only if template and number are: `a_1` + `_2` cannot collide with another template |
| DtmGenerator.SiteBuilder.AssignSlug | src/dtm/dtm_generator_internals.py:114-118 | the counter dict always counts the names numbered so far, and the id returned is the next one for its name |
| DtmGenerator.SiteBuilder.AddDevice | src/dtm/dtm_generator_internals.py:74-84 | storing a freshly numbered device appends to the dict: no earlier device is overwritten |
| DtmGenerator.SiteBuilder.EmitLeaves | src/dtm/dtm_generator_internals.py:66-86 | the device loop appends exactly the kept topology devices, in topology order, under the module, and the local table indexes exactly those |
| DtmGenerator.ExpandFromIndex | src/dtm/dtm_generator_internals.py:121-128 | expanding bus members through the local table gives what the site specification lists for that container, of which AsPublished says what it is |
| AsPublished.ExpandedAsListed | src/dtm/dtm_generator_internals.py:121-128 | a bus joins a device at a port iff some member pattern of its topology entry has the device's template and that port; the members are as many as such pairs |
| AsPublished.BlockAsListed | src/dtm/dtm_generator_internals.py:66-93 | a container's devices are the topology's entries that are not dropped, in order and field by field, and its buses join them as listed |
| DtmGenerator.SiteBuilder.EmitContainer | src/dtm/dtm_generator_internals.py:29-93 | after a container, devices, buses, counters and template tables are those of the site's blocks plus this one, the block BlockAsListed describes |
| DtmGenerator.CollectTemplatesUsed | src/dtm/dtm_generator_internals.py:131-152 | templates_used holds exactly the templates devices name; one missing from the catalog fails the site |
| DtmGenerator.SiteBuilder.EmitBattery | src/dtm/battery_pad.py:20-78 | the pad is one module and the leaves the coupling calls for: Megapacks for the ordered energy, or the CATL bank and, on dc_ext, PCS-1 to PCS-N |
| DtmGenerator.SiteBuilder.EmitUtilityDevices | src/dtm/utility_devices.py:21-30 | the two fixed-id devices are added, appended not overwritten, unless the site is off grid |
| DtmGenerator.SiteBuilder.LvMainBuses | src/dtm/site_buses.py:38-72 | the loop over the strict zip of transformers, switchboards and feeds yields the LV buses, or the failure a missing module or unequal lists raise |
| DtmGenerator.SiteBuilder.Generate | src/dtm/dtm_generator_service.py:36-119 | the accumulating generator, from empty dicts, returns exactly the specified site or its first failure |
| AsPublished.ComputeAsListed | src/dtm/dtm_generator_internals.py:29-93 | in every generated DTM, Cn is one module whose children are the variant's topology entries less those a partial container leaves out, and some stretch of the DTM's buses is the topology's, every member pattern expanded over those children |
| AsPublished.GridAsListed | src/dtm/dtm_generator_service.py:83-104 | … and Gk likewise, G1 from the primary variant's topology and every other from the feeder's |
| AsPublished.PadAndSiteBus | src/dtm/site_buses.py:13-35 | one bus joins every POI meter, every switchgear line-up and the battery module of the site and nothing else; the pad's children, by name and Modbus unit, are the smallest Megapack fleet that holds the ordered energy, or one bank declaring it and the PCS units |
| AsPublished.LvBusAsFed | src/dtm/site_buses.py:58-71 | one bus joins Gk's own transformer and switchboard and the modules of exactly the containers its feed lists, and nothing else |
| DtmSpec.FleetHoldsTheEnergy | src/dtm/battery_pad.py:81-106 | the Megapack fleet holds the ordered energy and one unit fewer does not |
| DtmSoundness.ValidatorsNeverFire | src/shared/schemas/dtm.py:117-148 | every generated site passes all three validators: parents, templates and bus members resolve |
| DtmSoundness.IdsDistinctEverywhere | src/dtm/dtm_generator_service.py:62-119 | device ids and bus ids of a site are all distinct, taken together: fixed utility ids never meet a numbered one, device and bus numbering share a counter without clashing |
| DtmSoundness.ContainerBusesLocal | src/dtm/dtm_generator_internals.py:66-93 | a container's topology bus joins only devices of that container |
| SiteNames.EveryTagNamesOneDevice | src/dtm/dtm_generator_internals.py:44-46 | display names are unique over the whole site, containers, pad, PCS and utility devices included, when tags are unique within each topology |
| SiteShape.GenerateSucceedsIff | src/dtm/dtm_generator_service.py:55-119 | with a shaped, tagged, complete catalog, generation succeeds iff the profile has a container for the GPU, more than one grid container comes with both a primary and a feeder variant, the Megapack template has a usable capacity, and every device's number leaves its template name within 64 characters |
| SiteShape.LvBusesOkIff | src/dtm/site_buses.py:55-71 | the strict zip holds iff the profile has a primary grid variant or the order needs one grid container: without a primary, two or more always fail |
| SiteShape.NoPrimaryFails | src/dtm/site_buses.py:61-71 | feeders without a primary, two or more grid containers: whatever else the order and catalog hold, the strict zip's ValueError ends generation |
| SiteShape.FeederAloneFails | src/bom_generator/manifest_models.py:46-47 | such a profile, written out: the manifest schema accepts it and no order for two grid containers can be generated |
| SiteShape.PrimaryOrOne | src/dtm/site_buses.py:58-71 | a site that was generated has a primary grid variant or needed only one grid container |
| SiteShape.LvShape | src/dtm/site_buses.py:58-71 | lv_main_k joins Gk's own transformer and switchboard and the modules of exactly the containers Gk feeds |
| DeviceSlugs.SlugValidIff | src/shared/schemas/dtm.py:47-74 | a numbered id passes the schema's id rule iff its template is snake case and the whole fits in 64 characters |
| DeviceSlugs.SiteIdsValidIff | src/shared/schemas/dtm.py:65-74 | all device ids of a site pass the rule iff each device's template is snake case and its own number, counted over the names asked for before it, leaves the id within 64 characters |
| DeviceSlugs.LongTemplateFails | src/shared/schemas/dtm.py:47-74 | a 63-character name obeys the rule itself, and its first numbered id does not |
| SiteShape.InvalidIdFails | src/shared/schemas/dtm.py:65-74 | when everything else GenerateSucceedsIff asks for holds, an id that does not fit ends generation with the id rule's error |
| SmallSite.LongTemplateRefused | src/shared/schemas/dtm.py:65-74 | a manifest whose compute topology uses a 63-character template: the name is valid, and the order is refused for its id |
| ComputeNodes.PackingConservesServers | src/sizing/compute_nodes.py:13-45 | container loads sum to the server count; all containers but the last hold 7, the last 1 to 7 |
| ComputeNodes.DeliveredSizesAsRequested | src/sizing/compute_nodes.py:13-15 | sizing the delivered GPUs gives the same servers and site peak as sizing the requested ones |
| ComputeFeeds.FeedsPartition | src/sizing/compute_feeds.py:6-19 | the feeds, laid end to end, are C1 to CN: nothing lost, repeated or reordered |
| ComputeFeeds.FedOnce | src/sizing/compute_feeds.py:17-19 | each compute container is in exactly one feed, the one integer division names |
| ComputeFeeds.FeedEmptyIff | src/sizing/compute_feeds.py:17-19 | a grid container feeds nothing iff the shares before it already cover the order |
| ComputeFeeds.FeedCanBeEmpty | src/sizing/compute_feeds.py:6-19 | 139 full B200 containers give 15 grid containers and G15 feeds nothing |
| ComputeFeeds.FeedsCarrySitePeak | src/sizing/compute_nodes.py:79-89 | the loads on all transformers together are exactly the site peak |
| ComputeFeeds.GridCountBounds | src/sizing/sizing_internals.py:28-34 | the grid containers' 800 kW design loads together cover the peak, and those of one fewer do not |
| ComputeFeeds.TransformerHolds | src/sizing/sizing_internals.py:26-34 | no order puts a grid container at or above 800 kW plus one full container, hence none above the 1000 kVA nameplate |
| ComputeFeeds.WithinDesignIff | src/sizing/sizing_internals.py:28-34 | the 800 kW design load holds on every grid container iff there is one grid container or a full share of the even split is within 800 kW |
| ComputeFeeds.DesignLoadCanBeExceeded | src/sizing/sizing_internals.py:28-34 | 37 full B200 containers give 4 grid containers and 860 kW on the first |
| SiteIndex.CollectContainers | src/cable_hose_schedule/_site_index.py:39-54 | the loop over modules yields the containers the specification lists, sorted by kind and natural tag |
| SiteIndex.ChildrenOfBlock | src/cable_hose_schedule/_site_index.py:48-51 | filtering the whole site by parent id gives back exactly one container's devices, in emission order |
| SiteIndex.SiteReadsBack | src/cable_hose_schedule/_site_index.py:39-68 | reading a generated site lists Cn at position n-1, then G1 to GM, then the pad: natural sorting of tags keeps emission order for any count |
| PowerCables.BuildPowerCables | src/cable_hose_schedule/_power_cables.py:31-68 | the nested loops append exactly the specified feeders, DC strings and branches; without a grid container the even split has no divisor |
| PowerCables.FeederIff | src/cable_hose_schedule/_power_cables.py:37-52 | given gear that can be told apart, a feeder runs from Gk's switchboard to Cn's panelboard iff n is in the k-th feed |
| SiteNetwork.SitePowerIff | src/cable_hose_schedule/_power_cables.py:33-39 | on a generated site the power sheet can be made iff the profile has a primary grid variant; without one the even split divides by zero |
| PowerCables.AtMostThree | src/cable_hose_schedule/_power_cables.py:97-108 | round robin of up to 3p servers over p PDUs puts at most 3 on any |
| DualPath.ServersKept | src/sizing/compute_nodes.py:29-38 | dropping tags from a full layout for k servers keeps exactly NODE-1 to NODE-k |
| DualPath.PdusKept | src/sizing/compute_nodes.py:29-38 | … and exactly the first ceil(k/3) PDUs on each side |
| RunEnds.FamilyInOrder | src/cable_hose_schedule/_site_index.py:39-68 | natural order lists a container's numbered devices as 1, 2, 3, …: position i in the sheet's loops is number i + 1 |
| PowerPaths.FedFromInside | src/cable_hose_schedule/_power_cables.py:31-108 | of all runs on a site's sheet, those into a compute container's device other than its panelboard come from that container's own branches |
| SitePower.ServerFedAt | src/cable_hose_schedule/_power_cables.py:97-108 | the only two runs into NODE-j are cordsets from PDU-A and PDU-B of number (j - 1) mod n + 1 |
| SitePower.PduLoad | src/cable_hose_schedule/_power_cables.py:97-108 | at most three runs go from any PDU's tag to server tags, counted over the whole site |
| SitePower.SitePowered | src/cable_hose_schedule/_power_cables.py:31-117 | in every compute container of every generated site, partial ones included, the sheet feeds each server from one A and one B PDU, no PDU feeds more than three, each PDU, CDU and dry cooler has its one panel branch, each switch its two cords, and the panelboard its one feeder, from the grid container whose feed lists it |
| SitePower.SiteStrings | src/cable_hose_schedule/_power_cables.py:53-65 | … and each PCS on the pad has one DC string run, from the battery bank, and nothing else |
| CommsCables.BuildCommsCables | src/cable_hose_schedule/_comms_cables.py:26-55 | the loops with their port counters append exactly the specified patches and uplinks, or fail on the first container that polls without a switch |
| CommsCables.PortsNeverShared | src/cable_hose_schedule/_comms_cables.py:41-43 | two patches on one switch and port are the same patch |
| CommsCables.PortsHaveNoGaps | src/cable_hose_schedule/_comms_cables.py:41-43 | the ports used on a switch are 1 to k for its number of patches, the battery patching into G1's switch included |
| ManagementNetwork.PatchedOnce | src/cable_hose_schedule/_comms_cables.py:32-43 | every polled device has exactly one patch cable |
| ManagementNetwork.PolledReaches | src/cable_hose_schedule/_comms_cables.py:26-55 | every polled device reaches EMS-GW over at most three cables |
| ManagementNetwork.AllPatchedOnce | src/cable_hose_schedule/_comms_cables.py:26-43 | … into its own container's switch, or from the pad into the first grid container's, copper, over its template's protocol |
| ManagementNetwork.AllUplinked | src/cable_hose_schedule/_comms_cables.py:44-55 | every other switch has a fiber uplink to that first one, and that one its copper uplink to EMS-GW |
| SiteNetwork.G1Leads | src/cable_hose_schedule/_comms_cables.py:26-55 | on a generated site that first one is G1's switch |
| ManagementNetwork.TreeIntoGateway | src/cable_hose_schedule/_comms_cables.py:26-55 | polled devices and switches lead to EMS-GW, nothing leaves it, and no device has two ways out iff no management switch is itself polled |
| SiteNetwork.SiteTagsApart | src/cable_hose_schedule/_site_index.py:34-36 | read from a generated site, no two children share a tag, named in their topology or falling back to their id, and none is called EMS-GW |
| ManagementNetwork.PolledSwitchIsNoTree | src/cable_hose_schedule/_comms_cables.py:41-54 | a grid container whose one device is a polled switch: the sheet is built and two cables leave the switch |
| SiteNetwork.SiteSheetOkIff | src/cable_hose_schedule/_comms_cables.py:28-40 | on a generated site the sheet can be built iff every planned block with a polled device has a management switch, the battery using the first grid container's |
| SiteNetwork.SiteNetworkIsTree | src/cable_hose_schedule/_comms_cables.py:26-55 | on a generated site whose blocks are switched, every polled device and switch leads to EMS-GW, each polled device has one patch, each switch's ports are 1 to k and used once, and it is a tree iff no management switch is polled |
| Hoses.BuildHoses | src/cable_hose_schedule/_hoses.py:21-73 | the loop over containers appends exactly the specified primary and secondary hoses |
| Hoses.LoopsAreClosed | src/cable_hose_schedule/_hoses.py:21-73 | over the whole schedule every device has as many hoses in as out |
| HoseLoops.SiteCooled | src/cable_hose_schedule/_hoses.py:21-73 | on every generated site, each server of a container with a CDU has exactly one supply and one return hose, to and from that CDU, the dry cooler its one of each, and a container without a CDU has none |
| Schedule.BuildSchedule | src/cable_hose_schedule/cable_hose_schedule_service.py:48-66 | power, comms and hoses of the containers read back, each numbered through, or the first sheet's failure |
| Schedule.EveryRunOrdered | src/bom_generator/cable_hose_lines.py:8-32 | of every schedule, each cable and hose is bought once, under a label that reads back to the tags of exactly the runs of that material |
| Schedule.ScheduleBuysNoPlate | src/bom_generator/cable_hose_lines.py:19-31 | no schedule makes a line that carries a plate's part number |
| Coherence.FeedMapsAgree | src/cable_hose_schedule/_power_cables.py:37-52 | the schedule runs a feeder from Gk to Cn iff a DTM bus joins Gk's switchboard to Cn's module, and for each n exactly one k does |
| BomModel.TakeOut | src/bom_generator/bom_container_groups.py:85-95 | the loop over parts takes dropped tags and their quantity out, dropping parts left with none |
| BomModel.BuildGroups | src/bom_generator/bom_container_groups.py:23-59 | full compute containers, the partial last one, the primary and the feeders, or the failure of a missing variant |
| BomModel.BuildSection | src/bom_generator/bom_container_lines.py:40-74 | the loops over first-seen ids append shell, part and plate lines as specified, or fail on the first missing spec or plate |
| BomCoverage.WithoutTags | src/bom_generator/bom_container_groups.py:85-95 | after _without, quantities still count tags and exactly the dropped tags are gone, for every equipment id |
| BomCoverage.QtyCountsTags | src/bom_generator/bom_container_lines.py:55-61 | a part line's quantity is the number of site tags its groups cover |
| BomCoverage.SectionQty | src/bom_generator/bom_container_lines.py:55-64 | over a section's lines, the quantity of an equipment id is the number of devices its containers hold of it |
| BomHardware.GroupsTile | src/bom_generator/bom_container_groups.py:40-59 | the groups tile C1 to CN and G1 to GM: contiguous, nothing skipped or doubled |
| BomHardware.SectionNamed | src/bom_generator/bom_container_lines.py:55-64 | reading back a section's reference designators gives, per equipment id, the tags its containers hold |
| BomGenerator.BuildBom | src/bom_generator/bom_generator_service.py:48-148 | the generator's loops produce the specified lines, order-wide prices, numbering and budget, or the first failure |
| BomAgreement.QuantitiesAgree | src/bom_generator/bom_generator_service.py:75-127 | for every order and equipment id the BOM buys, the quantity ordered from the fetched manifest is the number of devices of that equipment in the DTM of the pinned one, partial last container and PCS included |
| BomAgreement.QuantitiesAgreeIff | src/bom_generator/bom_generator_service.py:75 | with a pinned catalog that agrees with itself, a BOM made from any fetched manifest buys what the DTM holds iff the fetched bom.yaml files count the equipment, over the order's containers, as often as the pinned ones |
| SmallSite.RepublishedBuysAnother | src/bom_generator/bom_generator_service.py:75 | a CDU added and republished after create: the pipeline succeeds, the BOM buys one CDU, the DTM has none |
| BomAgreement.LabelsAgree | src/bom_generator/bom_generator_service.py:109-127 | reading the reference designators printed from the fetched manifest back gives exactly those devices' display names |
| BomAgreement.NumberedInOrder | src/bom_generator/bom_generator_service.py:151-155 | items are 1 to n, sections in order, and no line is lost, added or altered |
| RefDes.CollectRuns | src/bom_generator/bom_ref_des.py:44-51 | the runs concatenate to the tag list, each is consecutive, no two neighbours could be joined |
| RefDes.GroupingUnique | src/bom_generator/bom_ref_des.py:44-57 | only one grouping of a tag list is consecutive and maximal |
| RefDes.LabelReadsBackIff | src/bom_generator/bom_ref_des.py:44-62 | an expander recovers the tag list from the printed label iff every run keeps its first number's width |
| RefDes.CanonicalTagsReadBack | src/bom_generator/bom_ref_des.py:44-62 | numbers printed without padding always read back |
| RefDes.LabelCanLose | src/bom_generator/bom_ref_des.py:44-62 | A-9, A-010 prints as one run that reads back as A-9, A-10 |
| ContainerLabels.MergeIsSound | src/bom_generator/bom_ref_des.py:23-25 | merging groups with equal tags names the same site tags when the groups tile a range |
| ContainerLabels.MergeNeedsTiling | src/bom_generator/bom_ref_des.py:23-25 | C1 and C3 would print as C1-C3, naming a container that is not there |
| ContainerLabels.RefDesReadsBack | src/bom_generator/bom_ref_des.py:17-35 | a printed line, ranges and runs together, reads back to every site tag its groups cover, in order |
| BomBudget.PricingWorksIff | src/bom_generator/bom_pricing.py:52-54 | pricing an order works iff no listed, purchased part is bought below its first break |
| BomBudget.BelowFirstIff | src/bom_generator/bom_pricing.py:49-54 | with ascending breaks, that is iff the order quantity is below the first minimum |
| BomBudget.PricingCanFail | src/bom_generator/bom_pricing.py:54 | three of a part listed from ten up cannot be priced |
| BomBudget.PaysTheBestBreak | src/bom_generator/bom_pricing.py:53-54 | a listed part pays the break with the largest minimum the order reaches, and nothing else of its line changes |
| BomTotals.EveryLinePaysForTheOrder | src/bom_generator/bom_generator_service.py:129-137 | every line of every generated BOM pays that break for the quantity all lines of the BOM buy under its key, and is unpriced iff it is not bought or not listed |
| BomBudget.BookPricesAreOne | src/bom_generator/bom_generator_service.py:134-137 | after book prices, bought lines under one roll-up key carry one price, in whatever sections they sit and whatever vendor their spec names |
| BomBudget.LivePricesAreOne | src/pipeline/pipeline_bom.py:35-44 | … and still do after live offers, whatever distributors answer |
| BomBudget.LivePriceIsCheapest | src/bom_generator/bom_pricing.py:62-75 | a line with a priced offer costs what the cheapest of its priced offers asks, as a distributor listing; without one, price and source stay |
| BomBudget.BomDocument.AttachOffers | src/pipeline/pipeline_bom.py:15-45 | the in-place update leaves each line with its part number's offers and at the cheapest priced one, then the budget; without a catalog part nothing changes |
| BomPricing.BuildRollup | src/bom_generator/bom_rollup_xlsx.py:34-56 | grouping bought lines by key in a dict gives one row per part in first-seen order with summed quantity |
| BomBudget.RollupSumsToBudget | src/bom_generator/bom_rollup_xlsx.py:34-56 | with one price per part, the roll-up's extended costs sum to the budget total |
| BomBudget.SectionsSumToOrder | src/bom_generator/bom_pricing.py:78-94 | section totals, low and high ends and unpriced counts add up to the order's |
| BomTotals.BudgetSplitsBySource | src/bom_generator/bom_pricing.py:78-94 | quotes, listings and estimates add up to the total, the range runs 10, 15 and 40 percent of them either way, and the quoted share is the quotes' |
| BomBudget.LineRangeIff | src/bom_generator/bom_pricing.py:88-91 | a line's range brackets its price iff its extended price is not negative |
| BomBudget.RangeBracketsTotal | src/bom_generator/bom_pricing.py:88-91 | low ≤ total ≤ high on any lines without negative extended prices |
| BomBudget.NegativeOfferInvertsRange | src/bom_generator/bom_pricing.py:62-75 | an offer at -1 USD is accepted and puts low above total |
| BomTotals.GeneratedBomRollsUp | src/bom_generator/bom_generator_service.py:134-148 | every generated BOM has one price per part and a roll-up that sums to its budget, at book prices and after live offers |
| BomTotals.GeneratedRangeBrackets | src/bom_generator/bom_pricing.py:78-94 | with a price book of positive prices, every generated BOM's range brackets its total, and still does after live offers when no distributor answers below zero |
| FieldMaterial.CableHoseLines | src/bom_generator/cable_hose_lines.py:8-32 | the two loops over cables and hoses fill one dict of run tags per type, in first-seen order |
| FieldMaterial.EveryRunBought | src/bom_generator/cable_hose_lines.py:14-31 | line quantities sum to the number of runs |
| FieldMaterial.FieldLinesNameTheirRuns | src/bom_generator/cable_hose_lines.py:19-31 | each line's label reads back to exactly its run tags, for any number of runs, past 9999 too |
| GridRules.ObligationIffFlexible | src/shared/schemas/configurator_grid.py:77-163 | on a validated grid, a flex obligation is present iff the effective service type is flexible |
| Sizing.ThreePathsAgree | src/dtm/dtm_sizing.py:28-53 | preview, resolver and DTM agree for every validated order: peak, reserve, battery minimum, recharge, grid count and PCS power need |
| Sizing.PreviewMeans | src/sizing/sizing_service.py:39-90 | of any preview: the grid peak is the site peak less a nuclear plant; the reserve, discharged, carries it for the ride-through; the event energy carries the shed share for one event and the recharge refills it between two; the minimum is their sum; the limit state compares with the region's two thresholds |
| Sizing.CoverageMeans | src/sizing/sizing_internals.py:125-154 | coverage is the whole event when the battery holds reserve and event, else the hours what is above the reserve carries the shed share; the GPU cap is the share not shed |
| Sizing.DtmSizingMeans | src/dtm/dtm_sizing.py:28-53 | the same of the DTM's sizing block, against the order alone |
| Sizing.NeedSuffices | src/sizing/pcs_sizing.py:40-53 | the power need carries the site when the battery must, and covers the export limit or the whole bank |
| Sizing.NeedSufficesForEvents | src/sizing/pcs_sizing.py:43-46 | … and sheds an event's share and refills its energy in time |
| Sizing.NeedIsAJob | src/sizing/pcs_sizing.py:40-53 | … and is no more than one of these jobs, or nothing |
| Sizing.ResolvedOrderShaped | src/module_resolver/module_resolver_service.py:30-74 | resolved counts are at least one, fit each other, and deliver less than one server more than asked |
| Sizing.BessPowerNeed | src/sizing/pcs_sizing.py:22-53 | the list of jobs is the specified one and the need is the largest of them |
| Sizing.FleetCoversAndIsMinimal | src/sizing/pcs_sizing.py:56-59 | the fleet of 1043 kW units covers the need to half a millionth of a unit and one unit fewer does not, unless one is all there is |
| Sizing.RacksCoverAndAreMinimal | src/sizing/pcs_sizing.py:62-65 | the 379.4 kWh racks hold the ordered energy to the same rounding, and one rack fewer does not |
| Sizing.FleetCarriesInFullIff | src/sizing/pcs_sizing.py:56-59 | the fleet carries the whole need iff one unit is enough or the need is not within half a millionth above a whole number of units |
| Sizing.FleetCanFallShort | src/sizing/pcs_sizing.py:56-59 | 1043.0003 kW is ordered one 1043 kW unit |
| Sizing.FleetCarriesEveryJob | src/sizing/pcs_sizing.py:43-59 | the ordered fleet carries each of the battery's jobs to within that rounding |
| Sizing.FullExportCarriesTheBank | src/sizing/pcs_sizing.py:46-65 | on full export the fleet carries the whole CATL bank, which holds the ordered energy |
| Sizing.CoverageSparesReserve | src/sizing/sizing_internals.py:140-146 | curtailment coverage never draws on the reserve, and is zero when nothing is above it |
| Sizing.PreviewToldStraight | src/sizing/sizing_service.py:55-75 | FLEX_BESS_SHORTFALL, the GPU cap and short coverage come together or not at all; RESERVE_SHORTFALL leaves zero coverage |
| Sizing.BatteryFlagsMean | src/sizing/sizing_service.py:66-75 | of any preview, the four battery flags against the request: short of the event, flexible at all, short of the reserve, or racks below the power need |
| Sizing.GridFlagsMean | src/sizing/sizing_flags.py:38-106 | … and the seven grid flags against path, limit, region, export and islanding |
| Enrichment.OfferCache.Get | src/bom_enrichment/_offer_cache.py:47-61 | an offer is returned iff one is stored under the key and is not older than the time to live, and it is the stored one |
| Enrichment.OfferCache.Put | src/bom_enrichment/_offer_cache.py:63-72 | an offer is stored under its own key unless it is an error |
| Enrichment.OfferHistory.Record | src/bom_enrichment/_offer_history.py:37-44 | a dated snapshot is stored unless the offer is an error |
| Enrichment.SeesStart | src/bom_enrichment/enrichment_service.py:116-120 | before its own turn, a client sees the cache entry as it was at the start, whatever other threads did |
| Enrichment.EveryScheduleAgrees | src/bom_enrichment/enrichment_service.py:56-66 | every interleaving that finishes gives each client the same offers in MPN order, and stores holding exactly its successful fetches |
| Enrichment.HitsAreExact | src/bom_enrichment/enrichment_service.py:115-138 | in every finished interleaving a client's k-th offer is the one cached at the start iff caching is on and it is within its time to live, else what the portal answers, a raise told as an error offer |
| Enrichment.StoresAreExact | src/bom_enrichment/enrichment_service.py:135-138 | … and each store ends, for that client and MPN, with the portal's answer iff it was asked, gave no error and the store is on |
| Enrichment.SchedulesAgree | src/bom_enrichment/enrichment_service.py:56-66 | any two finished interleavings end with equal cache, history and results |
| Enrichment.CanFinish | src/bom_enrichment/enrichment_service.py:56-66 | from any point of any run, moving any unfinished thread finishes every thread within four steps per client and MPN left: no thread waits for another |
| Enrichment.ErrorsNeverStored | src/bom_enrichment/_offer_cache.py:63-66 | at no moment of any run does a store hold an error offer |
| EnrichmentService.FetchAllForClient | src/bom_enrichment/enrichment_service.py:102-140 | one client's loop over real cache and history objects gives, MPN by MPN, the cached offer iff it is within its time to live, else the portal's answer, and writes nothing but its own entries |
| EnrichmentService.Pivot | src/bom_enrichment/enrichment_service.py:67-72 | the nested loops deal the collected offers out by MPN in the order they came, or raise iff some offer is for an MPN not asked for |
| EnrichmentService.Enrich | src/bom_enrichment/enrichment_service.py:48-76 | clients run one after another give the dealt-out offers and end in the stores every schedule ends in |
| EnrichmentService.OneOfferPerClient | src/bom_enrichment/enrichment_service.py:67-76 | whatever the interleaving, the pivot never meets an unknown MPN, and each MPN is dealt one offer per client, in client order, each made by that client for that MPN |
| Jobs.JobStore.Put | src/jobs/job_store.py:32-34 | insert or overwrite one record, all others kept |
| Jobs.JobsService.Create | src/jobs/jobs_service.py:78-122 | the record stored is RUNNING with the pinned payload, resolution, manifest and preview; the urls returned are the ones stored |
| Jobs.JobsService.EndExecute | src/jobs/jobs_service.py:136-147 | the record read is written back with only status and urls or error replaced |
| Jobs.PinningIsHarmless | src/jobs/jobs_service.py:86-99 | overwriting the interconnection level keeps the payload valid and the resolution and sizing unchanged |
| Jobs.LevelStored | src/jobs/jobs_service.py:86-99 | the stored order is the one placed but for its interconnection level: distribution iff the grid peak is within the region's limit, and untouched off grid |
| Jobs.JobsAreSafe | src/jobs/jobs_service.py:100-148 | over every interleaving: RUNNING until the job's one execute ends, terminal after; error iff FAILED; pinned fields and the promised artifact list never change |
| Jobs.TerminalStays | src/jobs/jobs_service.py:124-148 | a terminal record never changes again, whatever happens later |
| Jobs.CreateIsAStep | src/jobs/jobs_service.py:78-122 | create's record, its payload still valid and its resolution that of the stored payload, is a possible next event |
| Jobs.BeginIsAStep | src/jobs/jobs_service.py:124-129 | a scheduled execute always finds its record, still RUNNING: the unknown-job branch is never taken |
| Jobs.EndIsAStep | src/jobs/jobs_service.py:136-147 | the copy execute read is still the stored record when it writes back: no update is lost |
| Jobs.PollLeavesNoTrace | src/jobs/jobs_service.py:150-159 | any run goes on as if a poll had not happened |
| PlatePromises.PlateRefsAre | src/pipeline/artifact_urls.py:55-76 | the 202 lists a row for a plate iff the profile names it |
| PlatePromises.PlateBoughtIff | src/bom_generator/bom_container_lines.py:66-74 | when no shell, spec or field line has the plate's part number, a finished BOM carries it iff the bom.yaml of the compute variant, the primary grid variant or, beyond one grid container, the feeder lists the plate |
| BomParts.EveryPartAsSpecified | src/bom_generator/spec_lines.py:6-42 | every hardware line of a generated BOM is bought as its spec.yaml says: by RFQ to the spec's own id while its vendor is open, else from that vendor under that model number, engineered to order iff the spec says so |
| BomFabrication.EveryContainerHasAShell | src/bom_generator/bom_container_lines.py:51-53 | a generated BOM orders as many compute shells as compute containers, and as many grid shells as grid containers |
| BomFabrication.EveryContainerHasItsPlates | src/bom_generator/bom_container_lines.py:66-73 | … and of each plate what its compute variant carries times the compute containers, plus the primary grid variant's, plus the feeder variant's for every other grid container |
| BomFabrication.PlateArtifactCounts | src/pipeline/artifact_summary.py:22-54 | the count attached to a plate's artifact is that quantity, when no other line can carry its number |
| PlatePromises.JobFailsIff | src/pipeline/artifact_summary.py:46-54 | with such part numbers and the BOM generated, a run ends FAILED iff the pipeline raised or the pinned profile promises a plate that no bom.yaml the order is built from, in the manifest fetched for the BOM, lists |
| SmallSite.PlateNeverBought | src/pipeline/artifact_summary.py:46-54 | a site with a grid container, a promised plate and no bom.yaml listing it: DTM, schedule and BOM are all made, and the job ends FAILED |
| Pipeline.ScheduleOkIff | src/cable_hose_schedule/cable_hose_schedule_service.py:48-66 | on a generated site the schedule can be made iff there is a primary grid variant and every planned block that polls has a switch |
| Pipeline.OrderLinesOkIff | src/bom_generator/bom_generator_service.py:76-127 | the lines of an order can be drawn up iff every bom.yaml it needs is published and every part and plate in them has its spec or drawings |
| Pipeline.PipelineSucceedsIff | src/pipeline/pipeline_service.py:99-112 | DTM, schedule and BOM are all made iff the profile, the order, the two manifests and the price book meet the conditions named one by one |
| Pipeline.JobCompletesIff | src/jobs/jobs_service.py:129-147 | drawings and uploads aside, a job completes iff those conditions hold and every plate of the pinned profile is listed by a fetched bom.yaml of the order, live offers or not |
| Artifacts.Summarize | src/pipeline/artifact_summary.py:10-54 | the quantity loop and the copy attach counts iff no promised plate is missing from the BOM; each kind tells its own counts, a plate the sum over all lines with its number, and kind, format, url and plate stay |
| DrawingArea.Violations | src/drawing/_drawing_area.py:55-71 | the loop finds exactly the content that leaves the frame or enters the title block |
| DrawingArea.FittingAlwaysSucceeds | src/drawing/_drawing_area.py:81-103 | for any content with an extent, nothing escapes after fitting |
| DrawingArea.ScaleIsLargest | src/drawing/_drawing_area.py:84-92 | the scale is the largest, up to full size, at which the content's extents fit the area |
| DrawingArea.ExtentsSmallest | src/drawing/_drawing_area.py:82-84 | the extents are the smallest box around the content |
| DrawingArea.BindToDrawingArea | src/drawing/_drawing_area.py:74-103 | the in-place transform never reaches its ValueError, leaves no violation, and uses one scale for all content, the largest that fits |
| DrawingArea.BindingIsIdempotent | src/drawing/_drawing_area.py:74-103 | binding a bound sheet changes nothing |
| InstallSequence.BuildMopRows | src/drawing/install_sequence_service.py:59-76 | the loop over sorted device ids and the final sort give the specified rows |
| InstallSequence.EveryTaskOnce | src/drawing/install_sequence_service.py:61-76 | the rows are a permutation of every device's tasks |
| InstallSequence.RowsAreTasks | src/drawing/install_sequence_service.py:61-74 | a row is listed iff some device's template has that task, with its level, minutes and crew under the device's tag, and there are as many rows as tasks |
| InstallSequence.LevelsInOrder | src/drawing/install_sequence_service.py:75 | no task of a higher commissioning level precedes one of a lower level; within a level devices go by name, then tasks |
| InstallSequence.DependencyHonouredIff | src/drawing/install_sequence_service.py:75 | on one device a task follows a dependency iff the dependency is of a lower level, or of the same level with a name that sorts first |
| InstallSequence.LowerLevelDependenciesFollow | src/drawing/install_sequence_service.py:75 | dependencies that point to a lower level are always honoured |
| InstallSequence.SameLevelDependencyCanFail | src/drawing/install_sequence_service.py:75 | a task listed before the same-level task it depends on |
| OrderCompiler.OrderWithinTransformers | src/module_resolver/module_resolver_service.py:57-59 | with the resolver's counts, no grid container is above nameplate |
| OrderCompiler.OneOrderOneSite | src/pipeline/pipeline_service.py:99-112 | whenever the pipeline of a validated order succeeds, DTM, schedule and BOM agree on feed map, quantities and labels, the management network stands, no transformer is above nameplate and together they carry the peak the preview showed |
| OrderCompiler.OneOrderPowered | src/pipeline/pipeline_service.py:99-112 | whenever the pipeline succeeds, its schedule powers and cools every compute container as SitePowered and SiteCooled say |

## Left out

- S3 clients, YAML parsing, HTTP controllers, dependency wiring, configuration and logging: plumbing; their failures are not modelled.
- Distributor portals, sessions and retries: a client is a function of the MPN.
- Spreadsheet, DXF, SVG and PDF rendering, title block, logo: library output; only rectangle geometry and row lists are kept.
- Device template contents (registers, measurements, alarms) beyond equipment id, capacity, protocol and install tasks: data.
- Region rules, presets per region, federal and partition exclusions, recommended path texts: each is one branch; the preview's standard preset and limits are parameters, and the preset check before a preview is not modelled.
- Artifact urls other than the interface plates': a job's list is an input to create, with the plates' rows somewhere in it.
- Manifest contents behind a url: a manifest stands for the files it points to, read once through `pinned` and once through `fetched`; a file replaced between two reads of one manifest is not modelled apart from that.
- Pipeline.RunPipeline: ends with the BOM; the drawings made after it and the uploads enter a job as an outcome that may raise.
- DtmSpec.Generate: checks device ids once all stand, not one by one as they are built; which of several failures is raised first is not modelled.
- Notes, descriptions, message strings and timestamps; the clock is frozen for the duration of one enrichment.
- Price deltas against week-old snapshots: one formula over one list.
- uuid4 freshness: assumed, as the guard of `Create`.
- Floating-point rounding, other than round-to-6-places in the PCS and rack counts, which is exact half-even on reals.
- Non-ASCII digits and newlines in tags, which Python's regular expressions would also accept.
- Enrichment.EveryScheduleAgrees: store keys are (distributor, MPN[, day]) triples, so injectivity of the URL-encoded object names is taken as given; a store write is one atomic step.
- DrawingArea.BindToDrawingArea: an entity is its layer and bounding box, so a box is taken to transform with its entity; the sheet is an array updated in place, without object identity.
- BomAgreement.QuantitiesAgree: speaks of equipment the BOM buys; the battery, modules and the two utility devices are the customer's or others' and have no equipment line.
- SiteNetwork.SiteNetworkIsTree: on a site whose first grid container has no management switch no uplinks are drawn, and the network is not claimed to be one tree.
- BomBudget.RangeBracketsTotal: one direction; across lines of mixed sign a range may still bracket the total by cancellation, which is why the exact condition is stated per line in LineRangeIff.
