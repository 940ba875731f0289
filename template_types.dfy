/** The template records of apps/web/src/app/modules/campaigns/templates/types/template.types.ts, and
    the filter and sorting records the template stores and helpers use. Dates are millisecond
    timestamps. The category and status unions are enumerations here, because the helpers are
    tables over exactly those values. filter.types.ts is not part of this model: its records are
    written from the way the stores and helpers use their fields. */
module TemplateTypes {
  import opened Wrappers

  datatype Category =
    | Promotion | Newsletter | LeadGeneration | Retention | Event | ProductLaunch | Seasonal | Custom

  datatype TemplateStatus = Active | Draft | Archived

  datatype MediaFile = MediaFile(id: Option<string>, fileType: string, url: Option<string>, name: string, size: Option<nat>)

  datatype BasicInfo = BasicInfo(objective: Option<string>, campaignType: Option<string>, channels: Option<seq<string>>)

  datatype Creatives = Creatives(
    headline: Option<string>, caption: Option<string>, callToAction: Option<string>,
    mediaFiles: Option<seq<MediaFile>>)

  datatype Planning = Planning(budget: Option<real>, startDate: Option<string>, endDate: Option<string>)

  /** The pre-filled wizard sections. The audience segments are kept as their identifiers. */
  datatype TemplateStructure = TemplateStructure(
    basicInfo: Option<BasicInfo>, creatives: Option<Creatives>, audience: Option<seq<string>>,
    planning: Option<Planning>, utmParameters: Option<map<string, string>>)

  datatype TemplateStats = TemplateStats(
    usageCount: int, averageCTR: Option<real>, averageConversion: Option<real>, successRate: Option<real>,
    lastUsedAt: Option<nat>)

  /** The statistics of a template nobody has used yet. */
  const FreshStats := TemplateStats(0, None, None, None, None)

  datatype Template = Template(
    id: string, name: string, description: Option<string>, category: Category, status: TemplateStatus,
    thumbnail: Option<string>, structure: TemplateStructure, tags: seq<string>, channels: seq<string>,
    stats: TemplateStats, isFavorite: bool, isShared: bool, createdAt: nat, updatedAt: nat,
    createdBy: string)

  datatype CreateTemplateInput = CreateTemplateInput(
    name: string, description: Option<string>, category: Category, tags: Option<seq<string>>,
    structure: TemplateStructure, thumbnail: Option<string>)

  /** `Partial<CreateTemplateInput> & { id }`: an absent field is `None`. */
  datatype UpdateTemplateInput = UpdateTemplateInput(
    id: string, name: Option<string>, description: Option<string>, category: Option<Category>,
    tags: Option<seq<string>>, structure: Option<TemplateStructure>, thumbnail: Option<string>)

  datatype TemplateFilters = TemplateFilters(
    search: string, categories: seq<Category>, channels: seq<string>, status: seq<TemplateStatus>,
    tags: seq<string>, showFavoritesOnly: bool)

  /** The filters that keep every template: no search text, no list, no favourites flag. */
  const NoTemplateFilters := TemplateFilters("", [], [], [], [], false)

  /** The sort fields the comparator knows; `OtherField` stands for any other value, which its
      `default` branch handles. */
  datatype SortField = Name | CreatedAt | UpdatedAt | UsageCount | OtherField(field: string)

  datatype SortDirection = Asc | Desc

  datatype TemplateSorting = TemplateSorting(field: SortField, direction: SortDirection)

  datatype ViewMode = Grid | List
}
