/**
 * The seed-data ingestion script: each JSON record of the sample company
 * (employees, customers, financial records, projects, knowledge articles) is
 * rendered as one searchable text, embedded, and written with its metadata to
 * the vector index in batches of 100.
 *
 * Record fields read with `record['key']` are plain fields. A field read with
 * `record.get('key', default)` is an `Option`, `None` standing for a missing
 * key. A field only tested for truthiness (`if record.get('key'):`) holds its
 * falsy value (empty text, 0, empty list) when it is missing or falsy.
 * Values that the script only interpolates with `{...}` are held as their
 * rendered text.
 */
module SeedIngest {
  import opened Wrappers
  import opened Text
  import opened VectorStore

  datatype Employee = Employee(
    id: string, name: string, title: string, department: string, team: Option<string>,
    location: string, email: string, phone: string, salary: int, managerEmail: string,
    equityAnnual: int, performanceRating: string, startDate: string, skills: seq<string>,
    currentProject: string)

  datatype Contact = Contact(name: Option<string>, title: Option<string>, email: Option<string>,
                             phone: Option<string>)

  datatype Customer = Customer(
    id: string, companyName: string, tier: string, industry: string, arr: int,
    employeeCount: string, primaryContact: Option<Contact>, paymentMethod: Option<string>,
    contractStart: string, contractEnd: string, supportTier: string, csm: Option<string>,
    activeUsers: Option<string>, integrations: seq<string>, recentNotes: string)

  /** A financial record; which fields are read depends on `recordType`. `breakdown`
      lists the items of the breakdown dictionary in order. */
  datatype Financial = Financial(
    id: string, recordType: string,
    department: string, fiscalQuarter: string, budgetAllocated: int, actualSpend: int,
    utilization: string, headcount: Option<string>, breakdown: seq<(string, int)>,
    fundingRound: string, amount: int, date: string, leadInvestor: string, postMoneyValuation: int,
    fiscalYear: string, totalYear: int, yoyGrowth: string, arrTargetEoy: int,
    notes: string)

  datatype Project = Project(
    id: string, projectName: string, status: string, team: string, lead: string, objective: string,
    techStack: seq<string>, targetLaunch: string, budget: int, teamSize: int, risks: string)

  datatype Knowledge = Knowledge(
    id: string, title: string, category: string, department: string, content: string,
    lastUpdated: string, accessLevel: Option<string>)

  /** The part `text` if `present`, else nothing. */
  function When(present: bool, text: string): seq<string> {
    if present then [text] else []
  }

  function Count(b: bool): nat {
    if b then 1 else 0
  }

  // ---------------------------------------------------------------------------
  // Searchable texts

  function EmployeeParts(emp: Employee): seq<string> {
    [ emp.name + " is a " + emp.title + " in the " + emp.department + " department",
      "Team: " + emp.team.GetOr("N/A"),
      "Based in " + emp.location,
      "Email: " + emp.email + ", Phone: " + emp.phone,
      "Salary: " + Money(emp.salary) ]
    + When(emp.managerEmail != "", "Reports to: " + emp.managerEmail)
    + When(emp.equityAnnual != 0, "Annual equity: " + Money(emp.equityAnnual))
    + [ "Performance rating: " + emp.performanceRating,
        "Started: " + emp.startDate ]
    + When(|emp.skills| > 0, "Skills: " + Join(", ", emp.skills))
    + When(emp.currentProject != "", "Current project: " + emp.currentProject)
  }

  /** `format_employee_content` */
  function EmployeeContent(emp: Employee): string {
    Join(". ", EmployeeParts(emp))
  }

  function CustomerParts(cust: Customer): seq<string> {
    var contact := cust.primaryContact.GetOr(Contact(None, None, None, None));
    [ cust.companyName + " is a " + cust.tier + " customer in the " + cust.industry + " industry",
      "Annual contract value: " + Money(cust.arr),
      "Company size: " + cust.employeeCount + " employees",
      "Primary contact: " + contact.name.GetOr("N/A") + " (" + contact.title.GetOr("N/A") + ")",
      "Contact email: " + contact.email.GetOr("N/A") + ", Phone: " + contact.phone.GetOr("N/A"),
      "Payment method: " + cust.paymentMethod.GetOr("N/A"),
      "Contract: " + cust.contractStart + " to " + cust.contractEnd,
      "Support tier: " + cust.supportTier,
      "Customer Success Manager: " + cust.csm.GetOr("N/A"),
      "Active users: " + cust.activeUsers.GetOr("0") ]
    + When(|cust.integrations| > 0, "Integrations: " + Join(", ", cust.integrations))
    + When(cust.recentNotes != "", "Notes: " + cust.recentNotes)
  }

  /** `format_customer_content` */
  function CustomerContent(cust: Customer): string {
    Join(". ", CustomerParts(cust))
  }

  /** One breakdown item, `f"{k}: ${v:,}"`. */
  function BreakdownItem(item: (string, int)): string {
    item.0 + ": " + Money(item.1)
  }

  function BreakdownItems(items: seq<(string, int)>): seq<string> {
    if |items| == 0 then [] else [BreakdownItem(items[0])] + BreakdownItems(items[1..])
  }

  /** The parts specific to the record type; other types have none. */
  function FinancialTypeParts(fin: Financial): seq<string> {
    if fin.recordType == "quarterly_budget" then
      [ "Department: " + fin.department,
        "Quarter: " + fin.fiscalQuarter,
        "Budget allocated: " + Money(fin.budgetAllocated),
        "Actual spend: " + Money(fin.actualSpend),
        "Utilization: " + fin.utilization + "%",
        "Headcount: " + fin.headcount.GetOr("N/A") ]
      + When(|fin.breakdown| > 0, "Breakdown: " + Join(", ", BreakdownItems(fin.breakdown)))
    else if fin.recordType == "funding" then
      [ "Funding round: " + fin.fundingRound,
        "Amount: " + Money(fin.amount),
        "Date: " + fin.date,
        "Lead investor: " + fin.leadInvestor,
        "Post-money valuation: " + Money(fin.postMoneyValuation) ]
    else if fin.recordType == "revenue_forecast" then
      [ "Fiscal year: " + fin.fiscalYear,
        "Total forecast: " + Money(fin.totalYear),
        "YoY growth: " + fin.yoyGrowth + "%",
        "ARR target end of year: " + Money(fin.arrTargetEoy) ]
    else []
  }

  function FinancialParts(fin: Financial): seq<string> {
    ["Financial Record: " + fin.recordType] + FinancialTypeParts(fin)
    + When(fin.notes != "", "Notes: " + fin.notes)
  }

  /** `format_financial_content` */
  function FinancialContent(fin: Financial): string {
    Join(". ", FinancialParts(fin))
  }

  function ProjectParts(proj: Project): seq<string> {
    [ "Project: " + proj.projectName,
      "Status: " + proj.status,
      "Team: " + proj.team,
      "Project lead: " + proj.lead,
      "Objective: " + proj.objective ]
    + When(|proj.techStack| > 0, "Technology stack: " + Join(", ", proj.techStack))
    + When(proj.targetLaunch != "", "Target launch: " + proj.targetLaunch)
    + When(proj.budget != 0, "Budget: " + Money(proj.budget))
    + When(proj.teamSize != 0, "Team size: " + IntText(proj.teamSize) + " people")
    + When(proj.risks != "", "Risks: " + proj.risks)
  }

  /** `format_project_content` */
  function ProjectContent(proj: Project): string {
    Join(". ", ProjectParts(proj))
  }

  function KnowledgeParts(kb: Knowledge): seq<string> {
    [ "Topic: " + kb.title,
      "Category: " + kb.category,
      "Department: " + kb.department,
      kb.content ]
    + When(kb.lastUpdated != "", "Last updated: " + kb.lastUpdated)
  }

  /** `format_knowledge_content` */
  function KnowledgeContent(kb: Knowledge): string {
    Join(". ", KnowledgeParts(kb))
  }

  // ---------------------------------------------------------------------------
  // Records written to the index

  function EmployeeRecord(emp: Employee, embed: string -> Vector): VectorRecord {
    var content := EmployeeContent(emp);
    VectorRecord(emp.id, embed(content), map[
      "doc_type" := Str("employee"), "content" := Str(content), "name" := Str(emp.name),
      "email" := Str(emp.email), "department" := Str(emp.department), "title" := Str(emp.title),
      "salary" := Int(emp.salary), "location" := Str(emp.location), "confidential" := Bool(true),
      "access_level" := Str("hr_managers_only")])
  }

  function CustomerRecord(cust: Customer, embed: string -> Vector): VectorRecord {
    var content := CustomerContent(cust);
    VectorRecord(cust.id, embed(content), map[
      "doc_type" := Str("customer"), "content" := Str(content), "company_name" := Str(cust.companyName),
      "industry" := Str(cust.industry), "tier" := Str(cust.tier), "arr" := Int(cust.arr),
      "support_tier" := Str(cust.supportTier), "pii_included" := Bool(true),
      "confidential" := Bool(true), "access_level" := Str("sales_cs_only")])
  }

  function FinancialRecord(fin: Financial, embed: string -> Vector): VectorRecord {
    var content := FinancialContent(fin);
    VectorRecord(fin.id, embed(content), map[
      "doc_type" := Str("financial"), "content" := Str(content), "record_type" := Str(fin.recordType),
      "confidential" := Bool(true), "access_level" := Str("finance_exec_only")])
  }

  function ProjectRecord(proj: Project, embed: string -> Vector): VectorRecord {
    var content := ProjectContent(proj);
    VectorRecord(proj.id, embed(content), map[
      "doc_type" := Str("project"), "content" := Str(content), "project_name" := Str(proj.projectName),
      "status" := Str(proj.status), "team" := Str(proj.team), "confidential" := Bool(false),
      "access_level" := Str("all_employees")])
  }

  /** A knowledge article is confidential when it is about a security incident or is technical. */
  predicate IsConfidentialCategory(category: string) {
    category == "security_incident" || category == "technical"
  }

  function KnowledgeRecord(kb: Knowledge, embed: string -> Vector): VectorRecord {
    var content := KnowledgeContent(kb);
    VectorRecord(kb.id, embed(content), map[
      "doc_type" := Str("knowledge"), "content" := Str(content), "title" := Str(kb.title),
      "category" := Str(kb.category), "department" := Str(kb.department),
      "confidential" := Bool(IsConfidentialCategory(kb.category)),
      "access_level" := Str(kb.accessLevel.GetOr("all_employees"))])
  }

  /** The records of a list of items, in order. */
  function Records<T>(items: seq<T>, toRecord: T -> VectorRecord): seq<VectorRecord> {
    seq(|items|, i requires 0 <= i < |items| => toRecord(items[i]))
  }

  // ---------------------------------------------------------------------------
  // Properties of the texts and records

  /** The employee text opens with the headline and always discloses the salary, as a
      grouped money amount that reads back as the salary; each optional part is present
      exactly when its field is set. */
  lemma EmployeeContentShape(emp: Employee)
    ensures var parts := EmployeeParts(emp);
            |parts| == 7 + Count(emp.managerEmail != "") + Count(emp.equityAnnual != 0)
                         + Count(|emp.skills| > 0) + Count(emp.currentProject != "")
            && parts[0] == emp.name + " is a " + emp.title + " in the " + emp.department + " department"
            && parts[1] == "Team: " + emp.team.GetOr("N/A")
            && parts[4] == "Salary: " + Money(emp.salary)
    // the optional parts in their fixed order, rating and start date after the equity
    ensures var parts := EmployeeParts(emp);
            var e := 5 + Count(emp.managerEmail != "") + Count(emp.equityAnnual != 0);
            && (emp.managerEmail != "" ==> parts[5] == "Reports to: " + emp.managerEmail)
            && (emp.equityAnnual != 0 ==> parts[e - 1] == "Annual equity: " + Money(emp.equityAnnual))
            && parts[e] == "Performance rating: " + emp.performanceRating
            && parts[e + 1] == "Started: " + emp.startDate
            && (|emp.skills| > 0 ==> parts[e + 2] == "Skills: " + Join(", ", emp.skills))
            && (emp.currentProject != "" ==> parts[|parts| - 1] == "Current project: " + emp.currentProject)
    ensures Occurs("Salary: " + Money(emp.salary), EmployeeContent(emp))
    ensures StartsWith(EmployeeContent(emp), emp.name + " is a " + emp.title + " in the " + emp.department + " department")
  {
    var parts := EmployeeParts(emp);
    JoinHasPart(". ", parts, 4);
    JoinStartsWithFirst(". ", parts);
  }

  /** Without a primary contact every contact detail reads "N/A", and a missing
      active-user count reads 0. */
  lemma CustomerContactDefaults(cust: Customer)
    ensures var parts := CustomerParts(cust);
            |parts| == 10 + Count(|cust.integrations| > 0) + Count(cust.recentNotes != "")
            && (cust.primaryContact.None? ==>
                  parts[3] == "Primary contact: " + "N/A" + " (" + "N/A" + ")"
                  && parts[4] == "Contact email: " + "N/A" + ", Phone: " + "N/A")
            && (cust.activeUsers.None? ==> parts[9] == "Active users: " + "0")
  {
  }

  /** The primary contact's email and phone always appear in the customer text. */
  lemma CustomerContentShowsContact(cust: Customer)
    ensures var contact := cust.primaryContact.GetOr(Contact(None, None, None, None));
            Occurs("Contact email: " + contact.email.GetOr("N/A") + ", Phone: " + contact.phone.GetOr("N/A"),
                   CustomerContent(cust))
  {
    JoinHasPart(". ", CustomerParts(cust), 4);
  }

  /** One breakdown entry per dictionary item, in order. */
  lemma {:induction false} BreakdownItemsEach(items: seq<(string, int)>)
    ensures |BreakdownItems(items)| == |items|
    ensures forall i :: 0 <= i < |items| ==> BreakdownItems(items)[i] == items[i].0 + ": " + Money(items[i].1)
  {
    if |items| > 0 {
      BreakdownItemsEach(items[1..]);
    }
  }

  /** The financial text starts with the record type, then the type's own parts
      (six for a quarterly budget, plus the breakdown when there is one; five for a
      funding round; four for a revenue forecast; none for any other type), then the
      notes when there are any. */
  lemma FinancialContentShape(fin: Financial)
    ensures var parts := FinancialParts(fin);
            parts[0] == "Financial Record: " + fin.recordType
            && |parts| == 1 + Count(fin.notes != "") +
               (if fin.recordType == "quarterly_budget" then 6 + Count(|fin.breakdown| > 0)
                else if fin.recordType == "funding" then 5
                else if fin.recordType == "revenue_forecast" then 4
                else 0)
            && (fin.notes != "" ==> parts[|parts| - 1] == "Notes: " + fin.notes)
    ensures StartsWith(FinancialContent(fin), "Financial Record: " + fin.recordType)
  {
    JoinStartsWithFirst(". ", FinancialParts(fin));
  }

  /** The project text has the five fixed parts, then each optional part exactly when its
      field is set. */
  lemma ProjectContentShape(proj: Project)
    ensures |ProjectParts(proj)| == 5 + Count(|proj.techStack| > 0) + Count(proj.targetLaunch != "")
                                      + Count(proj.budget != 0) + Count(proj.teamSize != 0) + Count(proj.risks != "")
    // each optional part at its place in the fixed order
    ensures var parts := ProjectParts(proj);
            var l := 5 + Count(|proj.techStack| > 0);
            var b := l + Count(proj.targetLaunch != "");
            var t := b + Count(proj.budget != 0);
            var r := t + Count(proj.teamSize != 0);
            && parts[..5] == ["Project: " + proj.projectName, "Status: " + proj.status, "Team: " + proj.team,
                              "Project lead: " + proj.lead, "Objective: " + proj.objective]
            && (|proj.techStack| > 0 ==> parts[5] == "Technology stack: " + Join(", ", proj.techStack))
            && (proj.targetLaunch != "" ==> parts[l] == "Target launch: " + proj.targetLaunch)
            && (proj.budget != 0 ==> parts[b] == "Budget: " + Money(proj.budget))
            && (proj.teamSize != 0 ==> parts[t] == "Team size: " + IntText(proj.teamSize) + " people")
            && (proj.risks != "" ==> parts[r] == "Risks: " + proj.risks && r == |parts| - 1)
    ensures StartsWith(ProjectContent(proj), "Project: " + proj.projectName)
  {
    JoinStartsWithFirst(". ", ProjectParts(proj));
  }

  /** The article body passes through verbatim as the fourth part. */
  lemma KnowledgeContentForm(kb: Knowledge)
    ensures KnowledgeContent(kb)
            == "Topic: " + kb.title + ". " + "Category: " + kb.category + ". " + "Department: " + kb.department
               + ". " + kb.content + (if kb.lastUpdated != "" then ". " + "Last updated: " + kb.lastUpdated else "")
  {
    var a, b, c := "Topic: " + kb.title, "Category: " + kb.category, "Department: " + kb.department;
    assert [a, b][..1] == [a];
    assert Join(". ", [a, b]) == a + ". " + b;
    assert [a, b, c][..2] == [a, b];
    assert Join(". ", [a, b, c]) == a + ". " + b + ". " + c;
    var four := [a, b, c, kb.content];
    assert four[..3] == [a, b, c];
    if kb.lastUpdated != "" {
      assert KnowledgeParts(kb) == four + ["Last updated: " + kb.lastUpdated];
      JoinSnoc(". ", four, "Last updated: " + kb.lastUpdated);
    } else {
      assert KnowledgeParts(kb) == four;
    }
  }

  /** An article is marked confidential exactly when its category is a security incident
      or technical; its access level is the article's own, or "all_employees". */
  lemma KnowledgeRecordAccess(kb: Knowledge, embed: string -> Vector)
    ensures var m := KnowledgeRecord(kb, embed).metadata;
            m["confidential"] == Bool(kb.category in {"security_incident", "technical"})
            && m["access_level"] == Str(if kb.accessLevel.Some? then kb.accessLevel.value else "all_employees")
            && m["doc_type"] == Str("knowledge") && m["content"] == Str(KnowledgeContent(kb))
  {
  }

  /** The records of the items, one per item in order, and what one ingestion run writes
      is exactly those records, in batches of 1 to 100. */
  lemma RecordsWritten<T>(items: seq<T>, toRecord: T -> VectorRecord)
    ensures |Records(items, toRecord)| == |items|
    ensures forall i :: 0 <= i < |items| ==> Records(items, toRecord)[i] == toRecord(items[i])
    ensures Flatten(Batches(Records(items, toRecord), 0)) == Records(items, toRecord)
    ensures forall b :: b in Batches(Records(items, toRecord), 0) ==> 0 < |b| <= BatchSize
  {
    var rs := Records(items, toRecord);
    BatchesPartition(rs, 0);
    assert rs[0..] == rs;
  }

  // ---------------------------------------------------------------------------
  // Ingestion loops

  /** The loop shared by the five `ingest_*` functions: one record per item, in order,
      then the batch upsert. */
  method IngestAll<T>(index: VectorIndex, items: seq<T>, toRecord: T -> VectorRecord)
    modifies index
    ensures index.upserts == old(index.upserts) + Batches(Records(items, toRecord), 0)
  {
    var vectors := [];
    var k := 0;
    while k < |items|
      invariant k <= |items| && |vectors| == k
      invariant forall j :: 0 <= j < k ==> vectors[j] == toRecord(items[j])
    {
      vectors := vectors + [toRecord(items[k])];
      k := k + 1;
    }
    assert vectors == Records(items, toRecord);
    var _ := UpsertInBatches(index, vectors);
  }

  method IngestEmployees(index: VectorIndex, employees: seq<Employee>, embed: string -> Vector)
    modifies index
    ensures index.upserts == old(index.upserts) + Batches(Records(employees, e => EmployeeRecord(e, embed)), 0)
  {
    IngestAll(index, employees, e => EmployeeRecord(e, embed));
  }

  method IngestCustomers(index: VectorIndex, customers: seq<Customer>, embed: string -> Vector)
    modifies index
    ensures index.upserts == old(index.upserts) + Batches(Records(customers, c => CustomerRecord(c, embed)), 0)
  {
    IngestAll(index, customers, c => CustomerRecord(c, embed));
  }

  method IngestFinancials(index: VectorIndex, financials: seq<Financial>, embed: string -> Vector)
    modifies index
    ensures index.upserts == old(index.upserts) + Batches(Records(financials, f => FinancialRecord(f, embed)), 0)
  {
    IngestAll(index, financials, f => FinancialRecord(f, embed));
  }

  method IngestProjects(index: VectorIndex, projects: seq<Project>, embed: string -> Vector)
    modifies index
    ensures index.upserts == old(index.upserts) + Batches(Records(projects, p => ProjectRecord(p, embed)), 0)
  {
    IngestAll(index, projects, p => ProjectRecord(p, embed));
  }

  method IngestCompanyKnowledge(index: VectorIndex, knowledge: seq<Knowledge>, embed: string -> Vector)
    modifies index
    ensures index.upserts == old(index.upserts) + Batches(Records(knowledge, k => KnowledgeRecord(k, embed)), 0)
  {
    IngestAll(index, knowledge, k => KnowledgeRecord(k, embed));
  }
}
